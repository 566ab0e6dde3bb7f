/** The language picker: a search box filters the thirteen languages by a case-insensitive
    substring test on the name, one language is selected radio-style, and a card above the list
    shows the selection whatever the filter hides. */
module Language {
  import Seqs
  import Text

  /** One language; `flag` is the flag emoji as its two regional-indicator characters. */
  datatype Lang = Lang(id: string, name: string, flag: string)

  /** The thirteen languages in the order the list shows them. */
  function Languages(): seq<Lang> {
    [ Lang("1", "English", "\U{1F1EC}\U{1F1E7}"),
      Lang("2", "Hindi", "\U{1F1EE}\U{1F1F3}"),
      Lang("3", "Spanish", "\U{1F1EA}\U{1F1F8}"),
      Lang("4", "French", "\U{1F1EB}\U{1F1F7}"),
      Lang("5", "Arabic", "\U{1F1E6}\U{1F1EA}"),
      Lang("6", "Chinese", "\U{1F1E8}\U{1F1F3}"),
      Lang("7", "German", "\U{1F1E9}\U{1F1EA}"),
      Lang("8", "Japanese", "\U{1F1EF}\U{1F1F5}"),
      Lang("9", "Portuguese", "\U{1F1F5}\U{1F1F9}"),
      Lang("10", "Russian", "\U{1F1F7}\U{1F1FA}"),
      Lang("11", "Bengali", "\U{1F1EE}\U{1F1F3}"),
      Lang("12", "Korean", "\U{1F1F0}\U{1F1F7}"),
      Lang("13", "Italian", "\U{1F1EE}\U{1F1F9}") ]
  }

  /** The filter callback: the lower-cased name includes the lower-cased query. */
  predicate Matches(lang: Lang, query: string) {
    Text.Contains(Text.Lower(lang.name), Text.Lower(query))
  }

  /** A language is kept exactly when the lower-cased query occurs in its lower-cased name. */
  lemma MatchesIffOccurs(lang: Lang, query: string)
    ensures Matches(lang, query) <==> Text.Occurs(Text.Lower(lang.name), Text.Lower(query))
  {
    Text.ContainsIffOccurs(Text.Lower(lang.name), Text.Lower(query));
  }

  /** `filteredLanguages`. */
  function FilterLanguages(langs: seq<Lang>, query: string): seq<Lang> {
    Seqs.Filter(langs, (l: Lang) => Matches(l, query))
  }

  /** The result holds exactly the matching languages, in their original order. */
  lemma FilterLanguagesExact(langs: seq<Lang>, query: string)
    ensures var r := FilterLanguages(langs, query);
      && (forall i :: 0 <= i < |r| ==> r[i] in langs && Matches(r[i], query))
      && (forall i :: 0 <= i < |langs| && Matches(langs[i], query) ==> langs[i] in r)
      && Seqs.IsSubsequence(r, langs)
  {
    Seqs.FilterIsSubsequence(langs, (l: Lang) => Matches(l, query));
  }

  /** An empty query lists all thirteen languages in order. */
  lemma EmptyQueryListsAll()
    ensures FilterLanguages(Languages(), "") == Languages()
    ensures |FilterLanguages(Languages(), "")| == 13
  {
    var langs := Languages();
    forall i | 0 <= i < |langs| ensures Matches(langs[i], "") {
      Text.ContainsEmpty(Text.Lower(langs[i].name));
    }
    Seqs.FilterAllKept(langs, (l: Lang) => Matches(l, ""));
  }

  /** The radio test of one row. */
  predicate IsSelected(selected: Lang, item: Lang) {
    selected.id == item.id
  }

  /** No two languages of the list share an id. */
  ghost predicate UniqueIds(langs: seq<Lang>) {
    Seqs.DistinctBy(langs, (l: Lang) => l.id)
  }

  lemma SampleIdsUnique()
    ensures UniqueIds(Languages())
  {
  }

  /** One row of the list: the language and whether its radio is filled. */
  datatype Row = Row(lang: Lang, selected: bool)

  /** The rows of the list for the given languages and selection. */
  function Rows(langs: seq<Lang>, selected: Lang): (r: seq<Row>)
    ensures |r| == |langs|
    ensures forall i :: 0 <= i < |r| ==> r[i].lang == langs[i]
    ensures forall i :: 0 <= i < |r| ==> (r[i].selected <==> IsSelected(selected, langs[i]))
  {
    if langs == [] then [] else [Row(langs[0], IsSelected(selected, langs[0]))] + Rows(langs[1..], selected)
  }

  /** What the screen shows: the "You Selected" card and the rows of the filtered list. */
  datatype View = View(card: Lang, rows: seq<Row>)

  function Render(selected: Lang, query: string): (v: View)
    ensures v.card == selected
    ensures |v.rows| == |FilterLanguages(Languages(), query)|
    ensures forall i :: 0 <= i < |v.rows| ==> v.rows[i].lang == FilterLanguages(Languages(), query)[i]
    ensures forall i :: 0 <= i < |v.rows| ==> (v.rows[i].selected <==> v.rows[i].lang.id == selected.id)
  {
    View(selected, Rows(FilterLanguages(Languages(), query), selected))
  }

  /** With unique ids at most one row is marked selected, whatever the query. */
  lemma AtMostOneRowSelected(selected: Lang, query: string, i: nat, j: nat)
    requires i < |Render(selected, query).rows| && j < |Render(selected, query).rows|
    requires Render(selected, query).rows[i].selected && Render(selected, query).rows[j].selected
    ensures i == j
  {
    var shown := FilterLanguages(Languages(), query);
    SampleIdsUnique();
    Seqs.FilterDistinct(Languages(), (l: Lang) => Matches(l, query), (l: Lang) => l.id);
    assert shown[i].id == selected.id == shown[j].id;
  }

  /** The card shows the selection whatever is typed in the search box, while a row for the
      selected language is shown exactly when its name matches the query. */
  lemma CardIgnoresFilter(selected: Lang, q1: string, q2: string)
    requires selected in Languages()
    ensures Render(selected, q1).card == Render(selected, q2).card == selected
    ensures (exists i :: 0 <= i < |Render(selected, q1).rows| && Render(selected, q1).rows[i].lang == selected)
      <==> Matches(selected, q1)
  {
    FilterLanguagesExact(Languages(), q1);
    var v := Render(selected, q1);
    var shown := FilterLanguages(Languages(), q1);
    if Matches(selected, q1) {
      var k :| 0 <= k < |Languages()| && Languages()[k] == selected;
      var i :| 0 <= i < |shown| && shown[i] == selected;
      assert v.rows[i].lang == selected;
    }
  }

  /** The screen's state: the selected language and the search text. */
  class LanguageScreen {
    var selected: Lang
    var query: string

    /** The screen opens with English selected and an empty search box. */
    constructor ()
      ensures selected == Languages()[0] && selected.name == "English" && query == ""
    {
      selected := Languages()[0];
      query := "";
    }

    /** `handleSelectLanguage`: a row press selects exactly that language. */
    method SelectLanguage(lang: Lang)
      modifies this
      ensures selected == lang && query == old(query)
    {
      selected := lang;
    }

    /** Typing in the search box. */
    method EditQuery(text: string)
      modifies this
      ensures query == text && selected == old(selected)
    {
      query := text;
    }

    /** The screen as the current state renders it; a pressed row is then the one selected row. */
    function Current(): (v: View)
      reads this
      ensures v == Render(selected, query)
      ensures v.card == selected
      ensures forall i :: 0 <= i < |v.rows| ==>
        (v.rows[i].selected <==> v.rows[i].lang.id == selected.id)
    {
      Render(selected, query)
    }
  }
}
