/** The medical documents screen: type chips filter a fixed document list, each type has a
    colour and a label, and an upload form in a modal demands a title. */
module Reports {
  import opened Wrappers
  import Seqs
  import Text

  datatype DocType = Prescription | Report | Invoice | MedicalRecord

  datatype Document = Document(id: string, title: string, docType: DocType, date: string,
                               doctor: Option<string>, size: string)

  /** The selected chip: All, or one document type. */
  datatype DocFilter = AllDocs | OnlyType(t: DocType)

  /** The modal's form fields. */
  datatype UploadForm = UploadForm(title: string, docType: DocType, doctorName: string)

  /** What pressing Upload reports in its alert. */
  datatype UploadAlert = MissingTitle | Uploaded

  /** The form as the screen opens it and as a successful upload leaves it. */
  function EmptyForm(): UploadForm {
    UploadForm("", Report, "")
  }

  /** The five documents the screen lists. */
  function SampleDocuments(): seq<Document> {
    [ Document("1", "Blood Test Report", Report, "Feb 20, 2026", Some("Dr. Sarah Johnson"), "2.4 MB"),
      Document("2", "Prescription", Prescription, "Feb 18, 2026", Some("Dr. Michael Chen"), "156 KB"),
      Document("3", "X-Ray Report", Report, "Feb 15, 2026", Some("Dr. Emily Brown"), "5.8 MB"),
      Document("4", "Consultation Invoice", Invoice, "Feb 12, 2026", None, "98 KB"),
      Document("5", "Medical History", MedicalRecord, "Jan 30, 2026", Some("Dr. James Wilson"), "1.2 MB") ]
  }

  /** `filteredDocuments`: All returns the list itself, a type filters by exact match. */
  function FilterDocuments(docs: seq<Document>, f: DocFilter): seq<Document> {
    match f
    case AllDocs => docs
    case OnlyType(t) => Seqs.Filter(docs, (d: Document) => d.docType == t)
  }

  /** A type chip lists exactly the documents of that type, in their original order. */
  lemma FilterDocumentsExact(docs: seq<Document>, t: DocType)
    ensures var r := FilterDocuments(docs, OnlyType(t));
      && (forall i :: 0 <= i < |r| ==> r[i] in docs && r[i].docType == t)
      && (forall i :: 0 <= i < |docs| && docs[i].docType == t ==> docs[i] in r)
      && Seqs.IsSubsequence(r, docs)
  {
    Seqs.FilterIsSubsequence(docs, (d: Document) => d.docType == t);
  }

  /** On the sample, the Reports chip lists documents 1 and 3. */
  lemma SampleReportFilter()
    ensures FilterDocuments(SampleDocuments(), OnlyType(Report)) == [SampleDocuments()[0], SampleDocuments()[2]]
  {
    var d := SampleDocuments();
    var p := (x: Document) => x.docType == Report;
    assert d[1..][1..][1..][1..][1..] == [];
    assert Seqs.Filter(d[1..][1..][1..], p) == [];
    assert Seqs.Filter(d[1..][1..], p) == [d[2]];
    assert Seqs.Filter(d[1..], p) == [d[2]];
  }

  /** On the sample no chip leaves the list empty, so "No documents found" never shows. */
  lemma SampleNeverEmpty(f: DocFilter)
    ensures |FilterDocuments(SampleDocuments(), f)| > 0
  {
    var d := SampleDocuments();
    match f
    case AllDocs =>
    case OnlyType(t) =>
      var i := match t case Report => 0 case Prescription => 1 case Invoice => 3 case MedicalRecord => 4;
      assert d[i].docType == t;
      FilterDocumentsExact(d, t);
  }

  /** The badge colour of a type. */
  function TypeColor(t: DocType): string {
    match t
    case Prescription => "#10B981"
    case Report => "#3B82F6"
    case Invoice => "#F59E0B"
    case MedicalRecord => "#8B5CF6"
  }

  /** The badge text of a type. */
  function TypeLabel(t: DocType): string {
    match t
    case Prescription => "Prescription"
    case Report => "Report"
    case Invoice => "Invoice"
    case MedicalRecord => "Medical Record"
  }

  /** Both tables tell the four types apart. */
  lemma TypeTablesDistinct(a: DocType, b: DocType)
    ensures TypeColor(a) == TypeColor(b) ==> a == b
    ensures TypeLabel(a) == TypeLabel(b) ==> a == b
  {
  }

  /** The title check of `handleUploadDocument`: `title.trim()` must not be empty, so a title
      made only of spaces, tabs or line breaks is refused. */
  function TitleAccepted(title: string): (ok: bool)
    ensures !ok <==> forall i :: 0 <= i < |title| ==> Text.IsTrimmable(title[i])
  {
    Text.TrimEmptyIffBlank(title);
    Text.Trim(title) != ""
  }

  /** The screen's state: the selected chip, the modal's visibility and the form. */
  class DocumentsScreen {
    var selectedFilter: DocFilter
    var modalVisible: bool
    var form: UploadForm

    constructor ()
      ensures selectedFilter == AllDocs && !modalVisible && form == EmptyForm()
    {
      selectedFilter := AllDocs;
      modalVisible := false;
      form := EmptyForm();
    }

    /** The documents the list shows. */
    function Shown(): (r: seq<Document>)
      reads this
      ensures r == FilterDocuments(SampleDocuments(), selectedFilter)
      ensures selectedFilter == AllDocs ==> r == SampleDocuments()
    {
      FilterDocuments(SampleDocuments(), selectedFilter)
    }

    /** "No documents found" takes the list's place when the filter leaves nothing; on the
        sample data that never happens. */
    function ShowsEmptyState(): (b: bool)
      reads this
      ensures b <==> Shown() == []
      ensures !b
    {
      SampleNeverEmpty(selectedFilter);
      |Shown()| == 0
    }

    /** A filter chip. */
    method SelectFilter(f: DocFilter)
      modifies this
      ensures selectedFilter == f && modalVisible == old(modalVisible) && form == old(form)
    {
      selectedFilter := f;
    }

    /** The floating upload button. */
    method OpenModal()
      modifies this
      ensures modalVisible && selectedFilter == old(selectedFilter) && form == old(form)
    {
      modalVisible := true;
    }

    /** Cancel, the close cross and the system back gesture: the form keeps what was typed. */
    method CloseModal()
      modifies this
      ensures !modalVisible && selectedFilter == old(selectedFilter) && form == old(form)
    {
      modalVisible := false;
    }

    /** Typing in the title field. */
    method EditTitle(text: string)
      modifies this
      ensures form == old(form).(title := text)
      ensures modalVisible == old(modalVisible) && selectedFilter == old(selectedFilter)
    {
      form := form.(title := text);
    }

    /** A type button of the form. */
    method ChooseType(t: DocType)
      modifies this
      ensures form == old(form).(docType := t)
      ensures modalVisible == old(modalVisible) && selectedFilter == old(selectedFilter)
    {
      form := form.(docType := t);
    }

    /** Typing in the doctor field. */
    method EditDoctorName(text: string)
      modifies this
      ensures form == old(form).(doctorName := text)
      ensures modalVisible == old(modalVisible) && selectedFilter == old(selectedFilter)
    {
      form := form.(doctorName := text);
    }

    /** `handleUploadDocument`: a title that trims to nothing is refused and nothing changes;
        otherwise the modal closes and the form is reset. */
    method UploadDocument() returns (alert: UploadAlert)
      modifies this
      ensures alert == MissingTitle <==> !TitleAccepted(old(form).title)
      ensures alert == MissingTitle ==> modalVisible == old(modalVisible) && form == old(form)
      ensures alert == Uploaded ==> !modalVisible && form == EmptyForm()
      ensures selectedFilter == old(selectedFilter)
    {
      if !TitleAccepted(form.title) {
        return MissingTitle;
      }
      modalVisible := false;
      form := EmptyForm();
      alert := Uploaded;
    }
  }
}
