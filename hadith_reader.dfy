/** The hadith reader: a drill-down from a collection to its sections and
  * from a section to its hadiths, with a text search and a grade filter over
  * the loaded hadiths. */
module HadithReader {
  import opened Wrappers
  import opened Text
  import opened Seqs

  datatype Collection = Collection(id: string, title: string)

  datatype Section = Section(id: string, title: string)

  datatype Grade = Grade(name: string, grade: string)

  /** A hadith; its Arabic number and book reference are only displayed and
    * are not modelled. `grades` is `None` when the record has no grade list. */
  datatype Hadith = Hadith(hadithNumber: string, text: string, grades: Option<seq<Grade>>)

  // ---------------------------------------------------------------------
  // Section list

  /** A section entry survives unless its id is "0" or its title is empty. */
  predicate KeepsSection(s: Section)
  {
    s.id != "0" && s.title != ""
  }

  /** The `{id, title}` pairs of the sections object, filtered. */
  function CleanSections(entries: seq<Section>): (r: seq<Section>)
    ensures IsSubseq(r, entries)
    ensures forall s :: s in r <==> s in entries && KeepsSection(s)
    ensures forall i :: 0 <= i < |r| ==> KeepsSection(r[i])
    ensures forall s :: multiset(r)[s] == if KeepsSection(s) then multiset(entries)[s] else 0
  {
    if entries == [] then []
    else
      assert entries == [entries[0]] + entries[1..];
      if KeepsSection(entries[0]) then [entries[0]] + CleanSections(entries[1..])
      else CleanSections(entries[1..])
  }

  /** Cleaning twice is cleaning once. */
  lemma {:induction false} CleanSectionsIdempotent(entries: seq<Section>)
    ensures CleanSections(CleanSections(entries)) == CleanSections(entries)
  {
    if entries != [] {
      CleanSectionsIdempotent(entries[1..]);
    }
  }

  // ---------------------------------------------------------------------
  // Grades

  /** `h.grades ?? []`. */
  function GradesOf(h: Hadith): seq<Grade>
  {
    if h.grades.Some? then h.grades.value else []
  }

  /** The grade strings of a grade list. */
  function GradeNames(gs: seq<Grade>): set<string>
  {
    if gs == [] then {} else GradeNames(gs[..|gs| - 1]) + {gs[|gs| - 1].grade}
  }

  /** The grade strings occurring anywhere in a list of hadiths. */
  function GradeSet(hs: seq<Hadith>): set<string>
  {
    if hs == [] then {} else GradeSet(hs[..|hs| - 1]) + GradeNames(GradesOf(hs[|hs| - 1]))
  }

  lemma {:induction false} GradeNamesMembers(gs: seq<Grade>, g: string)
    ensures g in GradeNames(gs) <==> exists j :: 0 <= j < |gs| && gs[j].grade == g
  {
    if gs != [] {
      var init := gs[..|gs| - 1];
      GradeNamesMembers(init, g);
      if g in GradeNames(init) {
        var j :| 0 <= j < |init| && init[j].grade == g;
        assert gs[j].grade == g;
      }
      if exists j :: 0 <= j < |gs| && gs[j].grade == g {
        var j :| 0 <= j < |gs| && gs[j].grade == g;
        if j < |init| { assert init[j].grade == g; }
      }
    }
  }

  /** A grade is available exactly when some loaded hadith carries it. */
  lemma {:induction false} GradeSetMembers(hs: seq<Hadith>, g: string)
    ensures g in GradeSet(hs) <==>
      exists i, j :: 0 <= i < |hs| && 0 <= j < |GradesOf(hs[i])| && GradesOf(hs[i])[j].grade == g
  {
    if hs != [] {
      var init, last := hs[..|hs| - 1], hs[|hs| - 1];
      GradeSetMembers(init, g);
      GradeNamesMembers(GradesOf(last), g);
      if g in GradeSet(init) {
        var i, j :| 0 <= i < |init| && 0 <= j < |GradesOf(init[i])| && GradesOf(init[i])[j].grade == g;
        assert hs[i] == init[i];
      } else if g in GradeNames(GradesOf(last)) {
        var j :| 0 <= j < |GradesOf(last)| && GradesOf(last)[j].grade == g;
        assert hs[|hs| - 1] == last;
      }
      if exists i, j :: 0 <= i < |hs| && 0 <= j < |GradesOf(hs[i])| && GradesOf(hs[i])[j].grade == g {
        var i, j :| 0 <= i < |hs| && 0 <= j < |GradesOf(hs[i])| && GradesOf(hs[i])[j].grade == g;
        if i < |init| { assert init[i] == hs[i]; }
      }
    }
  }

  /** Every element is before every later one: sorted, with no repeats. */
  predicate StrictlySorted(xs: seq<string>)
  {
    forall i, j :: 0 <= i < j < |xs| ==> LexLess(xs[i], xs[j])
  }

  lemma StrictlySortedDistinct(xs: seq<string>, i: nat, j: nat)
    requires StrictlySorted(xs) && i < j < |xs|
    ensures xs[i] != xs[j]
  {
    LexLessIrreflexive(xs[i]);
  }

  /** `x` put into its place in a strictly sorted list that lacks it. */
  function Insert(xs: seq<string>, x: string): (r: seq<string>)
    requires StrictlySorted(xs) && x !in xs
    ensures StrictlySorted(r)
    ensures forall y :: y in r <==> y in xs || y == x
    ensures |r| == |xs| + 1
  {
    if xs == [] then [x]
    else if LexLess(x, xs[0]) then
      assert forall j :: 0 <= j < |xs| ==> LexLess(x, xs[j]) by {
        forall j | 0 <= j < |xs| ensures LexLess(x, xs[j]) {
          if j > 0 { LexLessTransitive(x, xs[0], xs[j]); }
        }
      }
      [x] + xs
    else
      var rest := Insert(xs[1..], x);
      assert xs[0] != x;
      LexLessTotal(x, xs[0]);
      assert forall y :: y in rest ==> LexLess(xs[0], y) by {
        forall y | y in rest ensures LexLess(xs[0], y) {
          if y != x {
            var j :| 0 <= j < |xs[1..]| && xs[1..][j] == y;
            assert xs[j + 1] == y;
          }
        }
      }
      [xs[0]] + rest
  }

  /** `Array.from(grades).sort()`: the set's elements, sorted. The set is
    * emptied one arbitrary element at a time, as its iteration order is not
    * part of the result. */
  method SortedList(s: set<string>) returns (r: seq<string>)
    ensures StrictlySorted(r)
    ensures forall x :: x in r <==> x in s
  {
    r := [];
    var rest := s;
    while rest != {}
      invariant rest <= s
      invariant StrictlySorted(r)
      invariant forall x :: x in r <==> x in s && x !in rest
      decreases rest
    {
      var x :| x in rest;
      r := Insert(r, x);
      rest := rest - {x};
    }
  }

  /** `availableGrades`: every grade of every loaded hadith added to a set,
    * then sorted. */
  method AvailableGrades(hadiths: seq<Hadith>) returns (r: seq<string>)
    ensures StrictlySorted(r)
    ensures forall g :: g in r <==> g in GradeSet(hadiths)
  {
    var grades: set<string> := {};
    for i := 0 to |hadiths|
      invariant grades == GradeSet(hadiths[..i])
    {
      var gs := GradesOf(hadiths[i]);
      for j := 0 to |gs|
        invariant grades == GradeSet(hadiths[..i]) + GradeNames(gs[..j])
      {
        assert gs[..j + 1][..j] == gs[..j];
        grades := grades + {gs[j].grade};
      }
      assert gs[..|gs|] == gs;
      assert hadiths[..i + 1][..i] == hadiths[..i];
    }
    assert hadiths[..|hadiths|] == hadiths;
    r := SortedList(grades);
  }

  // ---------------------------------------------------------------------
  // Filter

  const ALL_GRADES := "All"

  /** The case-insensitive search on the text and the grade test: "All"
    * admits everything, any other grade only a hadith listing it. */
  predicate Matches(h: Hadith, searchTerm: string, grade: string)
  {
    && Contains(ToLower(h.text), ToLower(searchTerm))
    && (grade == ALL_GRADES || (h.grades.Some? && exists g :: g in h.grades.value && g.grade == grade))
  }

  /** `filteredHadiths`. */
  function Filtered(hadiths: seq<Hadith>, searchTerm: string, grade: string): (r: seq<Hadith>)
    ensures IsSubseq(r, hadiths)
    ensures forall h :: h in r <==> h in hadiths && Matches(h, searchTerm, grade)
    ensures |r| <= |hadiths|
    ensures forall h :: multiset(r)[h] == if Matches(h, searchTerm, grade) then multiset(hadiths)[h] else 0
  {
    if hadiths == [] then []
    else
      assert hadiths == [hadiths[0]] + hadiths[1..];
      if Matches(hadiths[0], searchTerm, grade) then [hadiths[0]] + Filtered(hadiths[1..], searchTerm, grade)
      else Filtered(hadiths[1..], searchTerm, grade)
  }

  lemma ContainsEmpty(s: string)
    ensures Contains(s, "")
  {
    assert OccursAt(s, "", 0);
  }

  /** With an empty search and "All" grades the list is shown whole. */
  lemma {:induction false} UnfilteredIsIdentity(hadiths: seq<Hadith>)
    ensures Filtered(hadiths, "", ALL_GRADES) == hadiths
  {
    if hadiths != [] {
      ContainsEmpty(ToLower(hadiths[0].text));
      assert ToLower("") == "";
      UnfilteredIsIdentity(hadiths[1..]);
    }
  }

  /** A hadith without grades is hidden by every specific grade. */
  lemma {:induction false} UngradedHiddenByGrade(hadiths: seq<Hadith>, searchTerm: string, grade: string, h: Hadith)
    requires grade != ALL_GRADES && h.grades.None?
    ensures h !in Filtered(hadiths, searchTerm, grade)
  {
  }

  /** A hadith appears under a specific grade only if that grade is among the
    * available ones. */
  lemma FilteredGradeIsAvailable(hadiths: seq<Hadith>, searchTerm: string, grade: string)
    requires grade != ALL_GRADES && Filtered(hadiths, searchTerm, grade) != []
    ensures grade in GradeSet(hadiths)
  {
    var h := Filtered(hadiths, searchTerm, grade)[0];
    assert h in hadiths && Matches(h, searchTerm, grade);
    var g :| g in h.grades.value && g.grade == grade;
    var i :| 0 <= i < |hadiths| && hadiths[i] == h;
    var j :| 0 <= j < |h.grades.value| && h.grades.value[j] == g;
    assert GradesOf(hadiths[i])[j].grade == grade;
    GradeSetMembers(hadiths, grade);
  }

  // ---------------------------------------------------------------------
  // Navigation state

  /** What the sections request yields: the entries of a JSON object, a
    * value that is not an object, or a failed request. */
  datatype SectionsReply = SectionsObject(entries: seq<Section>) | SectionsNotObject | SectionsFailed

  /** What the hadiths request yields: a `hadiths` list, a reply without one,
    * or a failed request. */
  datatype HadithsReply = HadithsList(hadiths: seq<Hadith>) | HadithsMissing | HadithsFailed

  const SECTIONS_ERROR := "Failed to load sections."
  const HADITHS_ERROR := "Failed to load hadiths."

  class HadithReaderView {
    var selectedCollection: Option<Collection>
    var sections: seq<Section>
    var selectedSection: Option<Section>
    var hadiths: seq<Hadith>
    var loading: bool
    var error: Option<string>
    var searchTerm: string
    var selectedGrade: string

    constructor ()
      ensures selectedCollection == None && sections == [] && selectedSection == None && hadiths == []
      ensures !loading && error == None && searchTerm == "" && selectedGrade == ALL_GRADES
    {
      selectedCollection := None;
      sections := [];
      selectedSection := None;
      hadiths := [];
      loading := false;
      error := None;
      searchTerm := "";
      selectedGrade := ALL_GRADES;
    }

    /** The list the reader shows. */
    function Visible(): seq<Hadith>
      reads this
    {
      Filtered(hadiths, searchTerm, selectedGrade)
    }

    /** `handleCollectionClick`, up to the sections request being sent. */
    method CollectionClick(col: Collection)
      modifies this
      ensures selectedCollection == Some(col) && selectedSection == None && hadiths == []
      ensures loading && error == None
      ensures sections == old(sections) && searchTerm == old(searchTerm) && selectedGrade == old(selectedGrade)
    {
      selectedCollection := Some(col);
      selectedSection := None;
      hadiths := [];
      loading := true;
      error := None;
    }

    /** The rest of `fetchSections`, once the request settles. */
    method SectionsArrived(reply: SectionsReply)
      modifies this`sections, this`error, this`loading
      ensures !loading
      ensures reply.SectionsObject? ==> sections == CleanSections(reply.entries) && error == old(error)
      ensures reply.SectionsNotObject? ==> sections == old(sections) && error == old(error)
      ensures reply.SectionsFailed? ==> sections == old(sections) && error == Some(SECTIONS_ERROR)
    {
      match reply {
        case SectionsObject(entries) => sections := CleanSections(entries);
        case SectionsNotObject =>
        case SectionsFailed => error := Some(SECTIONS_ERROR);
      }
      loading := false;
    }

    /** `handleSectionClick`: ignored without a collection; otherwise the
      * section is selected, both filters are reset and the hadiths request
      * is sent. */
    method SectionClick(sec: Section)
      modifies this
      ensures old(selectedCollection).None? ==>
        && selectedSection == old(selectedSection) && searchTerm == old(searchTerm)
        && selectedGrade == old(selectedGrade) && loading == old(loading) && error == old(error)
      ensures old(selectedCollection).Some? ==>
        && selectedSection == Some(sec) && searchTerm == "" && selectedGrade == ALL_GRADES
        && loading && error == None
      ensures selectedCollection == old(selectedCollection) && sections == old(sections) && hadiths == old(hadiths)
    {
      if selectedCollection.None? {
        return;
      }
      selectedSection := Some(sec);
      searchTerm := "";
      selectedGrade := ALL_GRADES;
      loading := true;
      error := None;
    }

    /** The rest of `fetchHadiths`, once the request settles. */
    method HadithsArrived(reply: HadithsReply)
      modifies this`hadiths, this`error, this`loading
      ensures !loading
      ensures reply.HadithsList? ==> hadiths == reply.hadiths && error == old(error)
      ensures reply.HadithsMissing? ==> hadiths == old(hadiths) && error == old(error)
      ensures reply.HadithsFailed? ==> hadiths == old(hadiths) && error == Some(HADITHS_ERROR)
    {
      match reply {
        case HadithsList(hs) => hadiths := hs;
        case HadithsMissing =>
        case HadithsFailed => error := Some(HADITHS_ERROR);
      }
      loading := false;
    }

    /** `resetSelection`, behind the "Collections" breadcrumb. */
    method ResetSelection()
      modifies this
      ensures selectedCollection == None && selectedSection == None && sections == [] && hadiths == []
      ensures searchTerm == "" && selectedGrade == ALL_GRADES
      ensures loading == old(loading) && error == old(error)
    {
      selectedCollection := None;
      selectedSection := None;
      sections := [];
      hadiths := [];
      searchTerm := "";
      selectedGrade := ALL_GRADES;
    }

    /** The collection breadcrumb: back to the section list. */
    method BackToSections()
      modifies this`selectedSection, this`hadiths
      ensures selectedSection == None && hadiths == []
    {
      selectedSection := None;
      hadiths := [];
    }

    /** "Back to Collections" on the section list: only the collection is
      * dropped, so the fetched sections stay in place. */
    method BackToCollections()
      modifies this`selectedCollection
      ensures selectedCollection == None
    {
      selectedCollection := None;
    }

    /** "Back to" the collection on the hadith list: only the section is
      * dropped; the hadiths and both filters stay until the next section
      * is chosen. */
    method BackFromHadiths()
      modifies this`selectedSection
      ensures selectedSection == None
    {
      selectedSection := None;
    }
  }
}
