/** The people directory table (`NannyTable`): the filter options derived
    from the loaded list, the conjunction of filters that selects the displayed
    rows, and the three filter cells with their setters and reset. */
module Directory {
  import opened Text
  import opened Ordered

  datatype Person = Person(id: int, name: string, tribe: string, location: string)

  /** The select filters' sentinel meaning "no restriction". */
  const All: string := "all"

  /** The values of the three filter cells. */
  datatype Filters = Filters(tribe: string, location: string, query: string)

  /** The filters' initial values, also restored by `ClearFilters`. */
  const Default: Filters := Filters(All, All, "")

  predicate MatchesTribe(p: Person, f: Filters) {
    f.tribe == All || p.tribe == f.tribe
  }

  predicate MatchesLocation(p: Person, f: Filters) {
    f.location == All || p.location == f.location
  }

  predicate MatchesSearch(p: Person, f: Filters) {
    Contains(Lower(p.name), Lower(f.query))
  }

  /** The predicate passed to `filter`. */
  predicate Retained(p: Person, f: Filters) {
    MatchesTribe(p, f) && MatchesLocation(p, f) && MatchesSearch(p, f)
  }

  /** `filteredData`: the people that pass every filter, in list order. A
      person is in the result exactly when it is in the list and passes. */
  function Filtered(people: seq<Person>, f: Filters): (r: seq<Person>)
    ensures |r| <= |people|
    ensures forall p :: p in r <==> p in people && Retained(p, f)
  {
    if people == [] then []
    else
      assert people == [people[0]] + people[1..];
      (if Retained(people[0], f) then [people[0]] else []) + Filtered(people[1..], f)
  }

  /** `hasActiveFilters` */
  predicate HasActiveFilters(f: Filters) {
    f.tribe != All || f.location != All || f.query != ""
  }

  /** `a` is `b` with some elements left out, the rest in the same order. */
  predicate IsSubsequence<T(==)>(a: seq<T>, b: seq<T>)
    decreases |b|
  {
    a == [] || (b != [] && ((a[0] == b[0] && IsSubsequence(a[1..], b[1..])) || IsSubsequence(a, b[1..])))
  }

  /** The displayed rows keep the list's order (the table never re-sorts). */
  lemma {:induction false} FilteredIsSubsequence(people: seq<Person>, f: Filters)
    ensures IsSubsequence(Filtered(people, f), people)
  {
    if people != [] {
      FilteredIsSubsequence(people[1..], f);
      var rest := Filtered(people[1..], f);
      if Retained(people[0], f) {
        assert Filtered(people, f) == [people[0]] + rest;
        assert Filtered(people, f)[1..] == rest;
      } else {
        assert Filtered(people, f) == rest;
      }
    }
  }

  /** Each person is shown as many times as it is loaded if it passes the
      filters, and not at all otherwise. */
  lemma {:induction false} FilteredMultiplicity(people: seq<Person>, f: Filters, p: Person)
    ensures multiset(Filtered(people, f))[p] == if Retained(p, f) then multiset(people)[p] else 0
  {
    if people != [] {
      FilteredMultiplicity(people[1..], f, p);
      assert people == [people[0]] + people[1..];
    }
  }

  /** A list every person of which passes is shown whole. */
  lemma {:induction false} FilteredAllRetained(people: seq<Person>, f: Filters)
    requires forall p :: p in people ==> Retained(p, f)
    ensures Filtered(people, f) == people
  {
    if people != [] {
      FilteredAllRetained(people[1..], f);
      assert people == [people[0]] + people[1..];
    }
  }

  /** With the initial filters the whole list is shown: the empty query is a
      substring of every name. */
  lemma DefaultShowsEveryone(people: seq<Person>)
    ensures Filtered(people, Default) == people
  {
    forall p | p in people ensures Retained(p, Default) {
      ContainsEmpty(Lower(p.name));
    }
    FilteredAllRetained(people, Default);
  }

  /** The filters are active exactly when they differ from their defaults;
      inactive filters show the whole list. */
  lemma InactiveFiltersShowEveryone(people: seq<Person>, f: Filters)
    ensures HasActiveFilters(f) <==> f != Default
    ensures !HasActiveFilters(f) ==> Filtered(people, f) == people
  {
    if !HasActiveFilters(f) {
      DefaultShowsEveryone(people);
    }
  }

  /** Queries that agree after lower-casing select the same rows. */
  lemma {:induction false} SearchIgnoresCase(people: seq<Person>, f: Filters, q1: string, q2: string)
    requires Lower(q1) == Lower(q2)
    ensures Filtered(people, f.(query := q1)) == Filtered(people, f.(query := q2))
  {
    if people != [] {
      SearchIgnoresCase(people[1..], f, q1, q2);
    }
  }

  /** Lower-casing the query beforehand changes nothing. */
  lemma LowerQueryChangesNothing(people: seq<Person>, f: Filters)
    ensures Filtered(people, f.(query := Lower(f.query))) == Filtered(people, f)
  {
    LowerIdempotent(f.query);
    SearchIgnoresCase(people, f, Lower(f.query), f.query);
    assert f.(query := f.query) == f;
  }

  /** Upper-casing the query beforehand changes nothing either. */
  lemma UpperQueryChangesNothing(people: seq<Person>, f: Filters)
    ensures Filtered(people, f.(query := Upper(f.query))) == Filtered(people, f)
  {
    LowerOfUpper(f.query);
    SearchIgnoresCase(people, f, Upper(f.query), f.query);
    assert f.(query := f.query) == f;
  }

  /** Two queries that differ only in the case of ASCII letters, position by
      position, select the same rows. */
  lemma CaseVariantQueriesAgree(people: seq<Person>, f: Filters, q1: string, q2: string)
    requires |q1| == |q2| && forall i :: 0 <= i < |q1| ==> SameUpToCase(q1[i], q2[i])
    ensures Filtered(people, f.(query := q1)) == Filtered(people, f.(query := q2))
  {
    LowerEqualIff(q1, q2);
    SearchIgnoresCase(people, f, q1, q2);
  }

  /** How many loaded people belong to a tribe. */
  function CountTribe(people: seq<Person>, v: string): nat {
    if people == [] then 0
    else (if people[0].tribe == v then 1 else 0) + CountTribe(people[1..], v)
  }

  /** Selecting a tribe offered by the list (never the sentinel) shows the
      people of that tribe and no one else, as many as the list holds. */
  lemma {:induction false} TribeSelection(people: seq<Person>, v: string)
    requires v != All
    ensures forall p :: p in Filtered(people, Default.(tribe := v)) ==> p.tribe == v
    ensures |Filtered(people, Default.(tribe := v))| == CountTribe(people, v)
  {
    if people != [] {
      TribeSelection(people[1..], v);
      ContainsEmpty(Lower(people[0].name));
    }
  }

  /** How many loaded people live at a location. */
  function CountLocation(people: seq<Person>, v: string): nat {
    if people == [] then 0
    else (if people[0].location == v then 1 else 0) + CountLocation(people[1..], v)
  }

  /** Selecting a location offered by the list (never the sentinel) shows the
      people at that location and no one else, as many as the list holds. */
  lemma {:induction false} LocationSelection(people: seq<Person>, v: string)
    requires v != All
    ensures forall p :: p in Filtered(people, Default.(location := v)) ==> p.location == v
    ensures |Filtered(people, Default.(location := v))| == CountLocation(people, v)
  {
    if people != [] {
      LocationSelection(people[1..], v);
      ContainsEmpty(Lower(people[0].name));
    }
  }

  /** The tribe column of the list. */
  function TribeColumn(people: seq<Person>): seq<string> {
    seq(|people|, i requires 0 <= i < |people| => people[i].tribe)
  }

  /** The location column of the list. */
  function LocationColumn(people: seq<Person>): seq<string> {
    seq(|people|, i requires 0 <= i < |people| => people[i].location)
  }

  /** `tribes`: the tribe options of the select filter. */
  function Tribes(people: seq<Person>): seq<string> {
    DistinctSorted(TribeColumn(people))
  }

  /** `locations`: the location options of the select filter. */
  function Locations(people: seq<Person>): seq<string> {
    DistinctSorted(LocationColumn(people))
  }

  /** The tribe options are duplicate-free, sorted, and offer a value exactly
      when some loaded person has it. */
  lemma TribesSpec(people: seq<Person>)
    ensures NoDuplicates(Tribes(people)) && Sorted(Tribes(people))
    ensures forall v :: v in Tribes(people) <==> exists p :: p in people && p.tribe == v
  {
    var col := TribeColumn(people);
    DistinctSortedSpec(col);
    forall v ensures v in col <==> exists p :: p in people && p.tribe == v {
      if v in col {
        var i :| 0 <= i < |col| && col[i] == v;
        assert people[i] in people;
      }
      if exists p :: p in people && p.tribe == v {
        var p :| p in people && p.tribe == v;
        var i :| 0 <= i < |people| && people[i] == p;
        assert col[i] == v;
      }
    }
  }

  /** The location options are duplicate-free, sorted, and offer a value
      exactly when some loaded person has it. */
  lemma LocationsSpec(people: seq<Person>)
    ensures NoDuplicates(Locations(people)) && Sorted(Locations(people))
    ensures forall v :: v in Locations(people) <==> exists p :: p in people && p.location == v
  {
    var col := LocationColumn(people);
    DistinctSortedSpec(col);
    forall v ensures v in col <==> exists p :: p in people && p.location == v {
      if v in col {
        var i :| 0 <= i < |col| && col[i] == v;
        assert people[i] in people;
      }
      if exists p :: p in people && p.location == v {
        var p :| p in people && p.location == v;
        var i :| 0 <= i < |people| && people[i] == p;
        assert col[i] == v;
      }
    }
  }

  /** Choosing any tribe the select offers never leads to an empty table. */
  lemma OfferedTribeNotEmpty(people: seq<Person>, v: string)
    requires v in Tribes(people)
    ensures Filtered(people, Default.(tribe := v)) != []
  {
    TribesSpec(people);
    var p :| p in people && p.tribe == v;
    ContainsEmpty(Lower(p.name));
    assert Retained(p, Default.(tribe := v));
  }

  /** Choosing any location the select offers never leads to an empty table. */
  lemma OfferedLocationNotEmpty(people: seq<Person>, v: string)
    requires v in Locations(people)
    ensures Filtered(people, Default.(location := v)) != []
  {
    LocationsSpec(people);
    var p :| p in people && p.location == v;
    ContainsEmpty(Lower(p.name));
    assert Retained(p, Default.(location := v));
  }

  /** Two people of the loaded directory: Wanjiru in Nairobi and Otieno in
      Kisumu. */
  const Wanjiru: Person := Person(1, "Wanjiru", "Kikuyu", "Nairobi")
  const Otieno: Person := Person(2, "Otieno", "Luo", "Kisumu")

  /** Searching "wan" finds Wanjiru only. */
  lemma SearchScenario()
    ensures Filtered([Wanjiru, Otieno], Default.(query := "wan")) == [Wanjiru]
  {
    var f := Default.(query := "wan");
    assert Lower("wan") == "wan";
    assert Lower(Wanjiru.name) == "wanjiru";
    assert Lower(Otieno.name) == "otieno";
    assert IsPrefix("wan", "wanjiru");
    assert Retained(Wanjiru, f);
    ContainsIffOccurs("otieno", "wan");
    forall i | 0 <= i <= 3 ensures !OccursAt("otieno", "wan", i) {
      assert "otieno"[i..i + 3][0] == "otieno"[i] != 'w';
    }
    assert !Retained(Otieno, f);
    assert [Wanjiru, Otieno][1..] == [Otieno];
    assert [Otieno][1..] == [];
  }

  /** Selecting Kisumu finds Otieno only. */
  lemma LocationScenario()
    ensures Filtered([Wanjiru, Otieno], Default.(location := "Kisumu")) == [Otieno]
  {
    var f := Default.(location := "Kisumu");
    assert !Retained(Wanjiru, f);
    ContainsEmpty(Lower(Otieno.name));
    assert Retained(Otieno, f);
    assert [Wanjiru, Otieno][1..] == [Otieno];
    assert [Otieno][1..] == [];
  }

  /** A list in which one person's tribe is the sentinel value itself. */
  const SentinelPeople: seq<Person> := [Person(1, "A", "all", "x"), Person(2, "B", "Luo", "y")]

  /** A tribe spelled "all" is offered as a tribe option, yet choosing it
      restricts nothing: everyone is shown, not only the one person of that
      tribe. The select filters cannot tell the option from the sentinel. */
  lemma SentinelTribeShowsEveryone()
    ensures All in Tribes(SentinelPeople)
    ensures CountTribe(SentinelPeople, All) == 1
    ensures Filtered(SentinelPeople, Default.(tribe := All)) == SentinelPeople
  {
    TribesSpec(SentinelPeople);
    assert TribeColumn(SentinelPeople)[0] == All;
    DefaultShowsEveryone(SentinelPeople);
    assert Default.(tribe := All) == Default;
  }

  /** One table row: the 1-based position label and the person shown. */
  datatype Row = Row(number: nat, person: Person)

  /** The table body: the "No results found" row, or one row per person. */
  datatype TableBody = NoResults | Rows(rows: seq<Row>)

  function Render(shown: seq<Person>): TableBody {
    if shown == [] then NoResults
    else Rows(seq(|shown|, i requires 0 <= i < |shown| => Row(i + 1, shown[i])))
  }

  /** The people read back off the rows, in row order. */
  function RowPeople(rows: seq<Row>): seq<Person> {
    seq(|rows|, i requires 0 <= i < |rows| => rows[i].person)
  }

  /** The table under the current filters: "No results found" exactly when
      no loaded person passes them; otherwise one row per shown person, in
      list order, labelled 1, 2, ..., so that the last label is the count
      `filteredData.length` of the "N of M people" badge, which never exceeds
      the size of the list. */
  lemma TableSpec(people: seq<Person>, f: Filters)
    ensures Render(Filtered(people, f)) == NoResults <==> forall p :: p in people ==> !Retained(p, f)
    ensures Render(Filtered(people, f)).Rows? ==>
              var rows := Render(Filtered(people, f)).rows;
              && |rows| == |Filtered(people, f)| <= |people|
              && rows[|rows| - 1].number == |Filtered(people, f)|
              && (forall i :: 0 <= i < |rows| ==> rows[i].number == i + 1)
              && RowPeople(rows) == Filtered(people, f)
              && (forall r :: r in rows ==> r.person in people && Retained(r.person, f))
  {
    var shown := Filtered(people, f);
    if shown != [] {
      assert shown[0] in shown;
      var rows := Render(shown).rows;
      forall r | r in rows ensures r.person in people && Retained(r.person, f) {
        var i :| 0 <= i < |rows| && rows[i] == r;
        assert r.person == shown[i];
      }
    }
  }

  /** The directory view's state: the loaded list and the three filter cells
      (`tribeFilter`, `locationFilter`, `searchQuery`). */
  class NannyTable {
    const people: seq<Person>
    var tribeFilter: string
    var locationFilter: string
    var searchQuery: string

    constructor (people: seq<Person>)
      ensures this.people == people
      ensures Current() == Default
      ensures Shown() == people
    {
      this.people := people;
      tribeFilter := All;
      locationFilter := All;
      searchQuery := "";
      new;
      DefaultShowsEveryone(people);
    }

    function Current(): Filters
      reads this
    {
      Filters(tribeFilter, locationFilter, searchQuery)
    }

    /** The people currently displayed. */
    function Shown(): seq<Person>
      reads this
    {
      Filtered(people, Current())
    }

    /** The "Clear filters" button is shown exactly when this holds. */
    function ShowClearButton(): bool
      reads this
    {
      HasActiveFilters(Current())
    }

    /** The tribe select's `onValueChange`. */
    method SetTribeFilter(v: string)
      modifies this
      ensures Current() == old(Current()).(tribe := v)
    {
      tribeFilter := v;
    }

    /** The location select's `onValueChange`. */
    method SetLocationFilter(v: string)
      modifies this
      ensures Current() == old(Current()).(location := v)
    {
      locationFilter := v;
    }

    /** The search input's `onChange`, and its clear button with `q == ""`. */
    method SetSearchQuery(q: string)
      modifies this
      ensures Current() == old(Current()).(query := q)
    {
      searchQuery := q;
    }

    /** `clearFilters`: every cell back at its default, so the button hides
      and the whole list is shown again. */
    method ClearFilters()
      modifies this
      ensures Current() == Default
      ensures !ShowClearButton()
      ensures Shown() == people
    {
      tribeFilter := All;
      locationFilter := All;
      searchQuery := "";
      DefaultShowsEveryone(people);
    }
  }
}
