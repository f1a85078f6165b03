/** pkg/provider/loadbalancer_listeners.go: parsing, combining and de-duplicating the ACL sources,
    on Go slices that share backing arrays. */
module Acl {
  import opened GoText

  // ---------------------------------------------------------------- Go slices

  /** A Go slice that starts at the beginning of its backing array; base.Length is its capacity. */
  datatype Slice = Slice(base: array<string>, len: nat) {
    predicate Valid() {
      len <= base.Length
    }

    function View(): seq<string>
      requires Valid()
      reads base
    {
      base[..len]
    }
  }

  method EmptySlice() returns (r: Slice)
    ensures r.Valid() && fresh(r.base) && r.View() == []
  {
    var base := new string[0];
    r := Slice(base, 0);
  }

  /** Go's append: it writes behind the slice's end into the shared array when the capacity is large
      enough, and otherwise moves to a new array of some larger capacity. */
  method Append(s: Slice, xs: seq<string>) returns (r: Slice)
    requires s.Valid()
    modifies s.base
    ensures r.Valid() && r.View() == old(s.View()) + xs
    ensures s.View() == old(s.View())
    ensures if s.len + |xs| <= s.base.Length then r.base == s.base else fresh(r.base)
  {
    var base := s.base;
    var size := s.len + |xs|;
    if size > s.base.Length {
      var capacity: nat :| size <= capacity;
      base := new string[capacity];
      forall i | 0 <= i < s.len {
        base[i] := s.base[i];
      }
    }
    assert base[..s.len] == old(s.View());
    forall i | s.len <= i < size {
      base[i] := xs[i - s.len];
    }
    r := Slice(base, size);
    assert base[..s.len] == old(s.View());
    assert base[s.len..size] == xs;
    assert base[..size] == base[..s.len] + base[s.len..size];
  }

  // ---------------------------------------------------------------- de-duplication

  /** Keeps the first of equal strings. */
  function Dedup(xs: seq<string>): (r: seq<string>)
    ensures forall x :: x in r <==> x in xs
  {
    if xs == [] then []
    else
      var init, last := xs[..|xs| - 1], xs[|xs| - 1];
      assert xs == init + [last];
      if last in init then Dedup(init) else Dedup(init) + [last]
  }

  predicate NoDuplicates<T(==)>(xs: seq<T>) {
    forall i, j | 0 <= i < j < |xs| :: xs[i] != xs[j]
  }

  lemma {:induction false} DedupNoDuplicates(xs: seq<string>)
    ensures NoDuplicates(Dedup(xs))
  {
    if xs != [] {
      DedupNoDuplicates(xs[..|xs| - 1]);
    }
  }

  /** Where x first occurs in xs. */
  ghost function First(xs: seq<string>, x: string): (i: nat)
    requires x in xs
    ensures i < |xs| && xs[i] == x && x !in xs[..i]
  {
    if xs[0] == x then 0
    else
      assert xs == [xs[0]] + xs[1..];
      var i := 1 + First(xs[1..], x);
      assert xs[..i] == [xs[0]] + xs[1..][..i - 1];
      i
  }

  lemma FirstIsLeast(xs: seq<string>, x: string, k: nat)
    requires k < |xs| && xs[k] == x
    ensures First(xs, x) <= k
  {
    var i := First(xs, x);
    assert forall j | 0 <= j < i :: xs[j] in xs[..i];
  }

  /** Dedup preserves order: its entries come in the order of their first occurrence. */
  lemma {:induction false} DedupKeepsOrder(xs: seq<string>, i: nat, j: nat)
    requires i < j < |Dedup(xs)|
    ensures First(xs, Dedup(xs)[i]) < First(xs, Dedup(xs)[j])
  {
    var init, last := xs[..|xs| - 1], xs[|xs| - 1];
    var a, b := Dedup(xs)[i], Dedup(xs)[j];
    assert xs == init + [last];
    if j < |Dedup(init)| {
      DedupKeepsOrder(init, i, j);
      FirstInPrefix(init, [last], a);
      FirstInPrefix(init, [last], b);
    } else {
      assert a in Dedup(init) && b == last;
      FirstInPrefix(init, [last], a);
    }
  }

  lemma FirstInPrefix(xs: seq<string>, ys: seq<string>, x: string)
    requires x in xs
    ensures x in xs + ys && First(xs + ys, x) == First(xs, x)
  {
    var i, j := First(xs, x), First(xs + ys, x);
    assert (xs + ys)[i] == x;
    assert forall k | 0 <= k < j :: (xs + ys)[k] in (xs + ys)[..j];
    assert forall k | 0 <= k < i :: xs[k] in xs[..i];
  }

  lemma DedupSnoc(xs: seq<string>, x: string)
    ensures Dedup(xs + [x]) == if x in xs then Dedup(xs) else Dedup(xs) + [x]
  {
    assert (xs + [x])[..|xs|] == xs;
  }

  /** De-duplicating the tail first changes nothing. */
  lemma {:induction false} DedupAbsorbs(a: seq<string>, b: seq<string>)
    ensures Dedup(a + Dedup(b)) == Dedup(a + b)
  {
    if b == [] {
      assert a + b == a + Dedup(b);
    } else {
      var init, last := b[..|b| - 1], b[|b| - 1];
      DedupAbsorbs(a, init);
      assert a + b == (a + init) + [last];
      DedupSnoc(a + init, last);
      if last !in init {
        assert a + Dedup(b) == (a + Dedup(init)) + [last];
        DedupSnoc(a + Dedup(init), last);
      }
    }
  }

  method RemoveDuplicateStrings(input: Slice) returns (result: Slice)
    requires input.Valid()
    ensures result.Valid() && fresh(result.base)
    ensures result.View() == Dedup(input.View())
  {
    var keys: set<string> := {};
    result := EmptySlice();
    var i := 0;
    while i < input.len
      invariant 0 <= i <= input.len
      invariant result.Valid() && fresh(result.base)
      invariant result.View() == Dedup(input.View()[..i])
      invariant forall x :: x in keys <==> x in input.View()[..i]
    {
      var item := input.base[i];
      assert input.View()[..i + 1] == input.View()[..i] + [item];
      if item !in keys {
        keys := keys + {item};
        result := Append(result, [item]);
      }
      i := i + 1;
    }
    assert input.View()[..input.len] == input.View();
  }

  // ---------------------------------------------------------------- parsing

  /** unicode.IsSpace. */
  predicate IsSpace(c: char) {
    c in {'\t', '\n', '\U{0B}', '\U{0C}', '\r', ' ', '\U{85}', '\U{A0}', '\U{1680}',
          '\U{2028}', '\U{2029}', '\U{202F}', '\U{205F}', '\U{3000}'} || '\U{2000}' <= c <= '\U{200A}'
  }

  predicate Trimmed(s: string) {
    s == "" || (!IsSpace(s[0]) && !IsSpace(s[|s| - 1]))
  }

  /** strings.TrimSpace. */
  function TrimSpace(s: string): (r: string)
    ensures Trimmed(r)
    ensures forall c :: c in r ==> c in s
    ensures Trimmed(s) ==> r == s
  {
    if s == "" then ""
    else if IsSpace(s[0]) then TrimSpace(s[1..])
    else if IsSpace(s[|s| - 1]) then TrimSpace(s[..|s| - 1])
    else s
  }

  predicate Blank(s: string) {
    forall c | c in s :: IsSpace(c)
  }

  /** Trimming cuts off blanks in front and behind, and with the result trimmed, all of them. */
  lemma {:induction false} TrimSpaceCuts(s: string) returns (front: string, back: string)
    ensures s == front + TrimSpace(s) + back && Blank(front) && Blank(back) && Trimmed(TrimSpace(s))
    decreases |s|
  {
    hide IsSpace;
    front, back := "", "";
    if s != "" && IsSpace(s[0]) {
      front, back := TrimSpaceCuts(s[1..]);
      front := [s[0]] + front;
      assert s == [s[0]] + s[1..];
    } else if s != "" && IsSpace(s[|s| - 1]) {
      front, back := TrimSpaceCuts(s[..|s| - 1]);
      back := back + [s[|s| - 1]];
      assert s == s[..|s| - 1] + [s[|s| - 1]];
    }
  }

  /** The entry is neither blank nor invalid. */
  predicate Counts(valid: string -> bool, entry: string) {
    TrimSpace(entry) != "" && valid(TrimSpace(entry))
  }

  /** A source is kept when it is not blank and parses as a CIDR; valid stands for net.ParseCIDR. */
  function KeepValid(valid: string -> bool, parts: seq<string>): (r: seq<string>)
    ensures forall x | x in r :: x != "" && Trimmed(x) && valid(x)
  {
    if parts == [] then []
    else
      var source := TrimSpace(parts[|parts| - 1]);
      KeepValid(valid, parts[..|parts| - 1]) + if source != "" && valid(source) then [source] else []
  }

  function ParsedSources(valid: string -> bool, text: string): seq<string> {
    KeepValid(valid, Split(text, ","))
  }

  /** What is kept are the trimmed entries that count, each, and in order. */
  lemma {:induction false} KeptEntries(valid: string -> bool, parts: seq<string>) returns (at: seq<nat>)
    ensures Picks(at, parts, p => Counts(valid, p)) && |at| == |KeepValid(valid, parts)|
    ensures forall k | 0 <= k < |at| :: KeepValid(valid, parts)[k] == TrimSpace(parts[at[k]])
  {
    hide TrimSpace;
    if parts == [] {
      at := [];
    } else {
      var init, last := parts[..|parts| - 1], parts[|parts| - 1];
      var before := KeptEntries(valid, init);
      PicksOn(before, init, p => Counts(valid, p), last);
      at := before + if Counts(valid, last) then [|init|] else [];
      assert parts == init + [last];
    }
  }

  lemma ParsedExactly(valid: string -> bool, parts: seq<string>)
    ensures forall x :: x in KeepValid(valid, parts) <==>
                        exists p :: p in parts && Counts(valid, p) && TrimSpace(p) == x
  {
    hide TrimSpace, KeepValid;
    var at := KeptEntries(valid, parts);
    forall p | p in parts && Counts(valid, p)
      ensures TrimSpace(p) in KeepValid(valid, parts)
    {
      var i :| 0 <= i < |parts| && parts[i] == p;
      var k :| 0 <= k < |at| && at[k] == i;
      assert KeepValid(valid, parts)[k] == TrimSpace(p);
    }
  }

  method ParseAclSources(valid: string -> bool, sourcesStr: string) returns (validSources: Slice)
    ensures validSources.Valid() && fresh(validSources.base)
    ensures validSources.View() == ParsedSources(valid, sourcesStr)
    ensures forall x :: x in validSources.View() <==>
                        exists p :: p in Split(sourcesStr, ",") && Counts(valid, p) && TrimSpace(p) == x
  {
    ParsedExactly(valid, Split(sourcesStr, ","));
    validSources := EmptySlice();
    var sources := Split(sourcesStr, ",");
    var i := 0;
    while i < |sources|
      invariant 0 <= i <= |sources|
      invariant validSources.Valid() && fresh(validSources.base)
      invariant validSources.View() == KeepValid(valid, sources[..i])
    {
      var source := TrimSpace(sources[i]);
      assert sources[..i + 1][..i] == sources[..i];
      if source != "" && valid(source) {
        validSources := Append(validSources, [source]);
      }
      i := i + 1;
    }
    assert sources[..i] == sources;
  }

  lemma {:induction false} KeepValidIdentity(valid: string -> bool, parts: seq<string>)
    requires forall x | x in parts :: x != "" && Trimmed(x) && valid(x)
    ensures KeepValid(valid, parts) == parts
  {
    if parts != [] {
      var init, last := parts[..|parts| - 1], parts[|parts| - 1];
      assert parts == init + [last] && last in parts;
      assert forall x | x in init :: x in parts;
      KeepValidIdentity(valid, init);
    }
  }

  /** Parsing the comma-join of clean sources gives them back. */
  lemma ParseJoin(valid: string -> bool, xs: seq<string>)
    requires forall x | x in xs :: x != "" && Trimmed(x) && ',' !in x && valid(x)
    ensures ParsedSources(valid, Join(xs, ",")) == xs
  {
    if xs == [] {
      SplitAbsent("", ",");
      assert [""][..0] == [];
    } else {
      SplitJoin(xs, ",");
      KeepValidIdentity(valid, xs);
    }
  }

  lemma {:induction false} KeptHaveNoComma(valid: string -> bool, parts: seq<string>)
    requires forall p | p in parts :: ',' !in p
    ensures forall x | x in KeepValid(valid, parts) :: ',' !in x
  {
    if parts != [] {
      KeptHaveNoComma(valid, parts[..|parts| - 1]);
    }
  }

  /** What parsing keeps survives being written back and parsed again: for every text and every
      notion of a valid CIDR. */
  lemma ParseJoinParse(valid: string -> bool, text: string)
    ensures var xs := ParsedSources(valid, text); ParsedSources(valid, Join(xs, ",")) == xs
  {
    SplitParts(text, ",");
    KeptHaveNoComma(valid, Split(text, ","));
    ParseJoin(valid, ParsedSources(valid, text));
  }

  // ---------------------------------------------------------------- combining

  const ACL_SOURCES := "loadbalancer.k8s.thalassa.cloud/acl-allowed-sources"
  const ACL_PORT := "loadbalancer.k8s.thalassa.cloud/acl-port"

  function SourcesAt(valid: string -> bool, annotations: map<string, string>, key: string): seq<string> {
    if key in annotations then ParsedSources(valid, annotations[key]) else []
  }

  function SourcesByName(valid: string -> bool, annotations: map<string, string>, name: string): seq<string> {
    if name == "" then [] else SourcesAt(valid, annotations, ACL_PORT + "-" + name)
  }

  function SourcesByNumber(valid: string -> bool, annotations: map<string, string>, port: int): seq<string> {
    SourcesAt(valid, annotations, ACL_PORT + "-" + Decimal(port))
  }

  /** The documented rule: the union of the global, by-name and by-number sources, in that order. */
  function CombinedSources(valid: string -> bool, annotations: map<string, string>, name: string,
                           port: int): seq<string> {
    Dedup(SourcesAt(valid, annotations, ACL_SOURCES)
          + (SourcesByName(valid, annotations, name) + SourcesByNumber(valid, annotations, port)))
  }

  // ---------------------------------------------------------------- what is combined, in terms of the annotations

  /** Where a source stands: in the global, the by-name or the by-number annotation, as which entry. */
  datatype Place = Place(annotation: nat, entry: nat) {
    predicate Before(that: Place) {
      annotation < that.annotation || (annotation == that.annotation && entry < that.entry)
    }
  }

  /** What there is to read for one port. */
  datatype Reading = Reading(valid: string -> bool, annotations: map<string, string>, name: string, port: int) {
    /** Entry i of the annotation is the source, but for blanks around it, and it counts. */
    predicate EntryAt(key: string, i: nat, source: string) {
      && key in annotations && i < |Split(annotations[key], ",")|
      && TrimSpace(Split(annotations[key], ",")[i]) == source && source != "" && valid(source)
    }

    predicate StandsAt(place: Place, source: string) {
      || (place.annotation == 0 && EntryAt(ACL_SOURCES, place.entry, source))
      || (place.annotation == 1 && name != "" && EntryAt(ACL_PORT + "-" + name, place.entry, source))
      || (place.annotation == 2 && EntryAt(ACL_PORT + "-" + Decimal(port), place.entry, source))
    }

    /** Some place of the one is before every place of the other. */
    ghost predicate StandsBefore(source: string, other: string) {
      exists place :: StandsAt(place, source) && forall that | StandsAt(that, other) :: place.Before(that)
    }

    /** The sources are those that stand in the annotations for the port, each once, in the order in which they
        first stand there: the global ones, then those by name, then those by number. */
    ghost predicate Asks(sources: seq<string>) {
      && NoDuplicates(sources)
      && (forall x :: x in sources <==> exists place :: StandsAt(place, x))
      && (forall i, j | 0 <= i < j < |sources| :: StandsBefore(sources[i], sources[j]))
    }

    /** The sources of some of the annotations and the places where they stand, in order and all of them. */
    ghost predicate AtPlaces(some: set<nat>, sources: seq<string>, places: seq<Place>) {
      && |places| == |sources|
      && (forall j, k | 0 <= j < k < |places| :: places[j].Before(places[k]))
      && (forall k | 0 <= k < |places| :: places[k].annotation in some && StandsAt(places[k], sources[k]))
      && (forall place: Place, x | place.annotation in some && StandsAt(place, x) :: place in places)
    }
  }

  /** The annotation that a place's number stands for. */
  predicate IsAnnotation(r: Reading, annotation: nat, key: string) {
    || (annotation == 0 && key == ACL_SOURCES)
    || (annotation == 1 && key == ACL_PORT + "-" + r.name && r.name != "")
    || (annotation == 2 && key == ACL_PORT + "-" + Decimal(r.port))
  }

  lemma AnnotationPlaces(r: Reading, annotation: nat, key: string) returns (places: seq<Place>)
    requires IsAnnotation(r, annotation, key)
    ensures r.AtPlaces({annotation}, SourcesAt(r.valid, r.annotations, key), places)
  {
    hide Split, TrimSpace, KeepValid, Decimal;
    places := [];
    if key in r.annotations {
      var parts := Split(r.annotations[key], ",");
      var at := KeptEntries(r.valid, parts);
      places := seq(|at|, k requires 0 <= k < |at| => Place(annotation, at[k]));
      forall place: Place, x | place.annotation == annotation && r.StandsAt(place, x)
        ensures place in places
      {
        assert Counts(r.valid, parts[place.entry]) && place.entry in at;
        var k :| 0 <= k < |at| && at[k] == place.entry;
        assert places[k] == place;
      }
    }
  }

  /** Sources of earlier annotations, and then those of later ones. */
  lemma PlacesConcat(r: Reading, some: set<nat>, a: seq<string>, ps: seq<Place>,
                     more: set<nat>, b: seq<string>, qs: seq<Place>)
    requires r.AtPlaces(some, a, ps) && r.AtPlaces(more, b, qs) && forall m, n | m in some && n in more :: m < n
    ensures r.AtPlaces(some + more, a + b, ps + qs)
  {
    hide Reading.StandsAt;
  }

  /** All sources for a port, before they are de-duplicated. */
  function ListedSources(r: Reading): seq<string> {
    SourcesAt(r.valid, r.annotations, ACL_SOURCES)
    + (SourcesByName(r.valid, r.annotations, r.name) + SourcesByNumber(r.valid, r.annotations, r.port))
  }

  lemma ByNamePlaces(r: Reading) returns (places: seq<Place>)
    ensures r.AtPlaces({1}, SourcesByName(r.valid, r.annotations, r.name), places)
  {
    hide Reading.EntryAt, SourcesAt;
    if r.name == "" {
      places := [];
    } else {
      places := AnnotationPlaces(r, 1, ACL_PORT + "-" + r.name);
    }
  }

  lemma ListedPlaces(r: Reading) returns (places: seq<Place>)
    ensures r.AtPlaces({0, 1, 2}, ListedSources(r), places)
  {
    hide Reading.AtPlaces, SourcesAt, SourcesByName, Decimal;
    var ps := AnnotationPlaces(r, 0, ACL_SOURCES);
    var qs := ByNamePlaces(r);
    var rs := AnnotationPlaces(r, 2, ACL_PORT + "-" + Decimal(r.port));
    PlacesConcat(r, {1}, SourcesByName(r.valid, r.annotations, r.name), qs,
                 {2}, SourcesByNumber(r.valid, r.annotations, r.port), rs);
    assert {1} + {2} == {1, 2} && {0} + {1, 2} == {0, 1, 2};
    PlacesConcat(r, {0}, SourcesAt(r.valid, r.annotations, ACL_SOURCES), ps,
                 {1, 2}, SourcesByName(r.valid, r.annotations, r.name)
                         + SourcesByNumber(r.valid, r.annotations, r.port), qs + rs);
    places := ps + (qs + rs);
  }

  lemma PlacesDecideSource(r: Reading, place: Place, x: string, y: string)
    requires r.StandsAt(place, x) && r.StandsAt(place, y)
    ensures x == y
  {}

  /** Where sources stand, the one that occurs first in the list stands first in the annotations. */
  lemma FirstStandsBefore(r: Reading, sources: seq<string>, places: seq<Place>, x: string, y: string)
    requires r.AtPlaces({0, 1, 2}, sources, places) && x in sources && y in sources
             && First(sources, x) < First(sources, y)
    ensures r.StandsBefore(x, y)
  {
    hide Reading.EntryAt;
    var place := places[First(sources, x)];
    forall that | r.StandsAt(that, y)
      ensures place.Before(that)
    {
      assert that in places;
      var k :| 0 <= k < |places| && places[k] == that;
      PlacesDecideSource(r, that, y, sources[k]);
      FirstIsLeast(sources, y, k);
    }
  }

  /** The union rule in terms of the annotations, with its order. */
  lemma CombinedIsAsked(r: Reading)
    ensures r.Asks(CombinedSources(r.valid, r.annotations, r.name, r.port))
  {
    hide Reading.StandsAt, SourcesAt, SourcesByName, SourcesByNumber, Reading.StandsBefore, Dedup;
    var listed := ListedSources(r);
    var places := ListedPlaces(r);
    var sources := Dedup(listed);
    DedupNoDuplicates(listed);
    forall x
      ensures x in listed <==> exists place :: r.StandsAt(place, x)
    {
      StandsExactly(r, listed, places, x);
    }
    forall i, j | 0 <= i < j < |sources|
      ensures r.StandsBefore(sources[i], sources[j])
    {
      DedupKeepsOrder(listed, i, j);
      FirstStandsBefore(r, listed, places, sources[i], sources[j]);
    }
  }

  lemma StandsExactly(r: Reading, sources: seq<string>, places: seq<Place>, x: string)
    requires r.AtPlaces({0, 1, 2}, sources, places)
    ensures x in sources <==> exists place :: r.StandsAt(place, x)
  {
    hide Reading.EntryAt;
    if x in sources {
      var k :| 0 <= k < |sources| && sources[k] == x;
      assert r.StandsAt(places[k], x);
    }
    if place :| r.StandsAt(place, x) {
      assert place in places;
      var k :| 0 <= k < |places| && places[k] == place;
      PlacesDecideSource(r, place, x, sources[k]);
    }
  }

  /** Parses the annotation, when present, onto the end of the slice. */
  method AppendSourcesAt(valid: string -> bool, annotations: map<string, string>, key: string, s: Slice)
    returns (r: Slice)
    requires s.Valid()
    modifies s.base
    ensures r.Valid() && (r.base == s.base || fresh(r.base))
    ensures r.View() == old(s.View()) + SourcesAt(valid, annotations, key)
  {
    r := s;
    if key in annotations {
      var sources := ParseAclSources(valid, annotations[key]);
      r := Append(s, sources.base[..sources.len]);
    }
  }

  method GetPerPortAclAllowedSources(valid: string -> bool, annotations: map<string, string>, name: string, port: int)
    returns (result: Slice)
    ensures result.Valid() && fresh(result.base)
    ensures result.View() == Dedup(SourcesByName(valid, annotations, name) + SourcesByNumber(valid, annotations, port))
  {
    var allowedSources := EmptySlice();
    if name != "" {
      allowedSources := AppendSourcesAt(valid, annotations, ACL_PORT + "-" + name, allowedSources);
    }
    assert allowedSources.View() == SourcesByName(valid, annotations, name);
    allowedSources := AppendSourcesAt(valid, annotations, ACL_PORT + "-" + Decimal(port), allowedSources);
    result := RemoveDuplicateStrings(allowedSources);
  }

  method GlobalAclSources(valid: string -> bool, annotations: map<string, string>) returns (result: Slice)
    ensures result.Valid() && fresh(result.base)
    ensures result.View() == SourcesAt(valid, annotations, ACL_SOURCES)
  {
    if ACL_SOURCES in annotations {
      result := ParseAclSources(valid, annotations[ACL_SOURCES]);
    } else {
      result := EmptySlice();
    }
  }

  /** One round of the port loop: the append may scribble behind the end of the global slice, but what
      the slice shows stays, and the round's result lives in memory of its own. */
  method CombineForPort(valid: string -> bool, annotations: map<string, string>, globalSources: Slice, name: string,
                        port: int)
    returns (result: Slice)
    requires globalSources.Valid()
    requires globalSources.View() == SourcesAt(valid, annotations, ACL_SOURCES)
    modifies globalSources.base
    ensures globalSources.View() == old(globalSources.View())
    ensures result.Valid() && fresh(result.base)
    ensures result.View() == CombinedSources(valid, annotations, name, port)
    ensures Reading(valid, annotations, name, port).Asks(result.View())
  {
    CombinedIsAsked(Reading(valid, annotations, name, port));
    hide Reading.Asks;
    var perPort := GetPerPortAclAllowedSources(valid, annotations, name, port);
    DedupAbsorbs(globalSources.View(),
                 SourcesByName(valid, annotations, name) + SourcesByNumber(valid, annotations, port));
    var appended := Append(globalSources, perPort.base[..perPort.len]);
    result := RemoveDuplicateStrings(appended);
  }

  // ---------------------------------------------------------------- when nothing is left

  lemma {:induction false} KeepsNothingExactly(valid: string -> bool, parts: seq<string>)
    ensures KeepValid(valid, parts) == [] <==> forall p | p in parts :: !Counts(valid, p)
  {
    if parts != [] {
      var init, last := parts[..|parts| - 1], parts[|parts| - 1];
      KeepsNothingExactly(valid, init);
      assert parts == init + [last] && last in parts;
      assert forall p | p in init :: p in parts;
    }
  }

  /** The annotation is absent, or all its entries are blank or invalid. */
  predicate Idle(valid: string -> bool, annotations: map<string, string>, key: string) {
    key in annotations ==> forall p | p in Split(annotations[key], ",") :: !Counts(valid, p)
  }

  lemma DedupEmptyExactly(xs: seq<string>)
    ensures Dedup(xs) == [] <==> xs == []
  {
    if xs != [] {
      assert xs[0] in xs;
    }
  }

  /** A port's list of sources is empty, which admits every source, exactly when none of the annotations
      for it has an entry that counts: invalid entries read as no entries at all. */
  lemma OpenExactly(valid: string -> bool, annotations: map<string, string>, name: string, port: int)
    ensures CombinedSources(valid, annotations, name, port) == []
       <==> && Idle(valid, annotations, ACL_SOURCES)
            && (name != "" ==> Idle(valid, annotations, ACL_PORT + "-" + name))
            && Idle(valid, annotations, ACL_PORT + "-" + Decimal(port))
  {
    hide Split, KeepValid, Dedup, Decimal, Counts;
    forall key | key in annotations
      ensures SourcesAt(valid, annotations, key) == [] <==> Idle(valid, annotations, key)
    {
      KeepsNothingExactly(valid, Split(annotations[key], ","));
    }
    DedupEmptyExactly(SourcesAt(valid, annotations, ACL_SOURCES)
                      + (SourcesByName(valid, annotations, name) + SourcesByNumber(valid, annotations, port)));
  }

  lemma PortKeyIsAnother(suffix: string)
    ensures ACL_PORT + "-" + suffix != ACL_SOURCES
  {
    assert (ACL_PORT + "-" + suffix)[36] == 'p' && ACL_SOURCES[36] == 'a';
  }

  lemma OneEntry(valid: string -> bool, entry: string, name: string, port: int)
    requires ',' !in entry
    ensures CombinedSources(valid, map[ACL_SOURCES := entry], name, port) == [] <==> !Counts(valid, entry)
  {
    hide Decimal, Counts, Split, CombinedSources;
    PortKeyIsAnother(name);
    PortKeyIsAnother(Decimal(port));
    SplitAbsent(entry, ",");
    OpenExactly(valid, map[ACL_SOURCES := entry], name, port);
    assert entry in [entry];
  }

  /** A network without its prefix length is no CIDR, and the one annotation meant to close the listener
      leaves it open. */
  lemma TypoLeavesOpen(name: string, port: int)
    ensures var valid := (x: string) => x == "10.0.0.0/8";
            && CombinedSources(valid, map[ACL_SOURCES := "10.0.0.0/8"], name, port) != []
            && CombinedSources(valid, map[ACL_SOURCES := "10.0.0.0"], name, port) == []
  {
    hide CombinedSources;
    var valid := (x: string) => x == "10.0.0.0/8";
    OneEntry(valid, "10.0.0.0/8", name, port);
    OneEntry(valid, "10.0.0.0", name, port);
  }
}
