/** The doctor specialisation grid: collapsed it shows the first eight of the twenty
    categories, expanded all of them, and the header link toggles between the two. */
module DoctorCategory {
  import opened Wrappers
  import Seqs

  datatype Category = Category(id: string, name: string)

  function Categories(): seq<Category> {
    [ Category("1", "Physician"), Category("2", "Dermatologist"), Category("3", "Gynecologist"),
      Category("4", "Diabetic"), Category("5", "Dentist"), Category("6", "Eye Specialist"),
      Category("7", "ENT Specialist"), Category("8", "Pain Mgt"), Category("9", "Pediatrician"),
      Category("10", "Neurologist"), Category("11", "Surgeon"), Category("12", "Gastro"),
      Category("13", "Psychiatrist"), Category("14", "Pulmonologist"), Category("15", "Consultant"),
      Category("16", "Cardiologist"), Category("17", "Endocrine"), Category("18", "Orthopedic"),
      Category("19", "Nephrologist"), Category("20", "Urologist") ]
  }

  /** Two rows of four. */
  const CollapsedCount: nat := 8

  /** `displayedData`: every category when expanded, `slice(0, 8)` when collapsed. */
  function Displayed(categories: seq<Category>, showAll: bool): (r: seq<Category>)
    ensures r <= categories
    ensures |r| == if showAll || |categories| < CollapsedCount then |categories| else CollapsedCount
  {
    if showAll then categories else Seqs.Take(categories, CollapsedCount)
  }

  /** The collapsed grid is the start of the expanded one; on the twenty categories it is
      exactly the first eight, and expanding shows all twenty. */
  lemma CollapsedIsPrefix(categories: seq<Category>)
    ensures Displayed(categories, false) <= Displayed(categories, true)
    ensures |categories| >= CollapsedCount ==> Displayed(categories, false) == categories[..CollapsedCount]
  {
  }

  lemma SampleGrid()
    ensures |Displayed(Categories(), false)| == 8 && Displayed(Categories(), false) == Categories()[..8]
    ensures |Displayed(Categories(), true)| == 20
  {
    CollapsedIsPrefix(Categories());
  }

  /** The header link. */
  function HeaderLabel(showAll: bool): (s: string)
    ensures s == "Show Less" <==> showAll
    ensures s == "View All" <==> !showAll
  {
    if showAll then "Show Less" else "View All"
  }

  /** A card press: `onPressCategory?.(item)` hands the category to the caller's handler when
      there is one and does nothing otherwise. */
  function CardPress(hasHandler: bool, item: Category): (r: Option<Category>)
    ensures r.Some? <==> hasHandler
    ensures r.Some? ==> r.value == item
  {
    if hasHandler then Some(item) else None
  }

  /** The grid's state: `showAll`. */
  class CategoryGrid {
    var showAll: bool

    /** The grid starts collapsed. */
    constructor ()
      ensures !showAll
    {
      showAll := false;
    }

    /** The header link press. */
    method Toggle()
      modifies this
      ensures showAll == !old(showAll)
    {
      showAll := !showAll;
    }

    /** The categories shown, and the header that goes with them. */
    function Shown(): (r: seq<Category>)
      reads this
      ensures r <= Categories()
      ensures |r| == (if showAll then 20 else 8)
      ensures HeaderLabel(showAll) == "Show Less" <==> r == Categories()
    {
      Displayed(Categories(), showAll)
    }
  }

  /** Two presses of the header restore the grid. */
  method ToggleTwiceRestores(g: CategoryGrid)
    modifies g
    ensures g.showAll == old(g.showAll) && g.Shown() == old(g.Shown())
  {
    g.Toggle();
    g.Toggle();
  }
}
