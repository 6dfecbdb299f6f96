/** The place-search parser (`getCityResultList`) as a function of the event
    sequence, and what it promises.

    The Java code keeps one reference `cty` to the City it last created and
    adds that reference to the result on every `</place>`; text under a
    `woeid`, `name` or `country` tag keeps changing the object `cty` points to,
    even after it was added to the result. The model therefore keeps every
    City object created so far (`objects`, in creation order; `cty` is the last
    one, or null while there is none) and the result as references into it. */
module CitySearch {
  import opened Wrappers
  import opened Xml
  import opened WeatherModel

  datatype CityScan = CityScan(objects: seq<City>, currentTag: Option<string>, result: seq<Option<nat>>)
  {
    /** Every reference in the result names a created City. */
    ghost predicate Valid() {
      forall k :: 0 <= k < |result| && result[k].Some? ==> result[k].value < |objects|
    }
  }

  const Start: CityScan := CityScan([], None, [])

  predicate IsPlaceStart(e: Event) { e.StartTag? && e.name == "place" }

  predicate IsPlaceEnd(e: Event) { e.EndTag? && e.name == "place" }

  predicate IsFieldTag(tag: Option<string>) {
    tag == Some("woeid") || tag == Some("name") || tag == Some("country")
  }

  /** `cty.setId`, `cty.setName` or `cty.setCountry`, by the current tag. */
  function SetField(c: City, tag: string, text: string): City
  {
    if tag == "woeid" then c.(id := Some(text))
    else if tag == "name" then c.(name := Some(text))
    else if tag == "country" then c.(country := Some(text))
    else c
  }

  /** One turn of the parser loop. Only field text with no City to fill
      throws, and it throws a null-pointer exception. */
  function Step(s: CityScan, e: Event): (r: Result<CityScan, WeatherLibException>)
    ensures s.Valid() && r.Success? ==> r.value.Valid()
    ensures r.Failure? <==> e.Text? && IsFieldTag(s.currentTag) && |s.objects| == 0
    ensures r.Failure? ==> r.error == WeatherLibException(NullPointer)
  {
    match e
    case StartTag(name, _) =>
      var objects := if name == "place" then s.objects + [NewCity] else s.objects;
      Success(s.(objects := objects, currentTag := Some(name)))
    case Text(text) =>
      if !IsFieldTag(s.currentTag) then Success(s)
      else if |s.objects| == 0 then Failure(WeatherLibException(NullPointer))
      else
        var last := |s.objects| - 1;
        Success(s.(objects := s.objects[last := SetField(s.objects[last], s.currentTag.value, text)]))
    case EndTag(name) =>
      if name == "place" then
        var cty := if |s.objects| == 0 then None else Some(|s.objects| - 1);
        Success(s.(result := s.result + [cty]))
      else Success(s)
  }

  /** The parser loop over `events`, from state `s`. */
  function Scan(s: CityScan, events: seq<Event>): (r: Result<CityScan, WeatherLibException>)
    ensures s.Valid() && r.Success? ==> r.value.Valid()
    ensures r.Failure? ==> r.error == WeatherLibException(NullPointer)
  {
    if |events| == 0 then Success(s)
    else
      match Scan(s, events[..|events| - 1])
      case Failure(err) => Failure(err)
      case Success(t) => Step(t, events[|events| - 1])
  }

  /** The list the caller receives: each reference read at the end. */
  function Resolve(s: CityScan): (cities: seq<Option<City>>)
    requires s.Valid()
  {
    seq(|s.result|, k requires 0 <= k < |s.result| =>
      if s.result[k].None? then None else Some(s.objects[s.result[k].value]))
  }

  /** `getCityResultList`: the cities, or a WeatherLibException, which can
      only wrap a null-pointer exception. */
  function CityResultList(events: seq<Event>): (r: Result<seq<Option<City>>, WeatherLibException>)
    ensures r.Failure? ==> r.error == WeatherLibException(NullPointer)
  {
    match Scan(Start, events)
    case Failure(err) => Failure(err)
    case Success(s) => Success(Resolve(s))
  }

  // ---------------------------------------------------------------------------
  // Reference definitions, stated over the document and not over the loop.

  function PlaceStarts(events: seq<Event>): nat
  {
    if |events| == 0 then 0
    else PlaceStarts(events[..|events| - 1]) + (if IsPlaceStart(events[|events| - 1]) then 1 else 0)
  }

  function PlaceEnds(events: seq<Event>): nat
  {
    if |events| == 0 then 0
    else PlaceEnds(events[..|events| - 1]) + (if IsPlaceEnd(events[|events| - 1]) then 1 else 0)
  }

  /** The name of the last start tag after `events`, starting from `tag0`. */
  function TagAfter(tag0: Option<string>, events: seq<Event>): Option<string>
  {
    if |events| == 0 then tag0
    else if events[|events| - 1].StartTag? then Some(events[|events| - 1].name)
    else TagAfter(tag0, events[..|events| - 1])
  }

  /** The text of the last text event seen while the last start tag was `field`. */
  function LastTextUnder(tag0: Option<string>, events: seq<Event>, field: string): Option<string>
  {
    if |events| == 0 then None
    else
      var e := events[|events| - 1];
      var before := events[..|events| - 1];
      if e.Text? && TagAfter(tag0, before) == Some(field) then Some(e.text)
      else LastTextUnder(tag0, before, field)
  }

  function Latest(earlier: Option<string>, later: Option<string>): Option<string>
  {
    if later.Some? then later else earlier
  }

  /** City `c` after the text events of `events`, read with current tag `tag0`. */
  function Filled(c: City, tag0: Option<string>, events: seq<Event>): City
  {
    City(Latest(c.id, LastTextUnder(tag0, events, "woeid")),
         Latest(c.name, LastTextUnder(tag0, events, "name")),
         Latest(c.country, LastTextUnder(tag0, events, "country")))
  }

  /** A text event at position `i` read while the current tag is a City field
      and before any `place` tag opened, so there is no City to fill. */
  predicate Orphan(events: seq<Event>, i: int)
  {
    0 <= i < |events| && events[i].Text? &&
    IsFieldTag(TagAfter(None, events[..i])) && PlaceStarts(events[..i]) == 0
  }

  predicate NoPlaceStart(events: seq<Event>) {
    forall i :: 0 <= i < |events| ==> !IsPlaceStart(events[i])
  }

  function Repeat<T>(x: T, n: nat): (r: seq<T>)
    ensures |r| == n && forall k :: 0 <= k < n ==> r[k] == x
  {
    if n == 0 then [] else Repeat(x, n - 1) + [x]
  }

  // ---------------------------------------------------------------------------
  // Lemmas

  /** Scanning a concatenation is scanning its parts one after the other. */
  lemma {:induction false} ScanAppend(s: CityScan, a: seq<Event>, b: seq<Event>)
    ensures Scan(s, a + b) == match Scan(s, a)
                              case Failure(err) => Failure(err)
                              case Success(t) => Scan(t, b)
  {
    if |b| == 0 {
      assert a + b == a;
    } else {
      ScanAppend(s, a, b[..|b| - 1]);
      assert (a + b)[..|a + b| - 1] == a + b[..|b| - 1];
      assert (a + b)[|a + b| - 1] == b[|b| - 1];
    }
  }

  /** What the loop's locals hold after a successful pass: one City per `place`
      start tag, one result entry per `place` end tag, and `currentTag` the name
      of the last start tag. */
  lemma {:induction false} ScanCounts(events: seq<Event>)
    ensures Scan(Start, events).Success? ==>
      var s := Scan(Start, events).value;
      |s.objects| == PlaceStarts(events) && |s.result| == PlaceEnds(events) &&
      s.currentTag == TagAfter(None, events)
  {
    if |events| > 0 {
      ScanCounts(events[..|events| - 1]);
    }
  }

  /** City count: one entry per `</place>`, in document order. */
  lemma CityCount(events: seq<Event>)
    ensures CityResultList(events).Success? ==> |CityResultList(events).value| == PlaceEnds(events)
  {
    ScanCounts(events);
  }

  /** The parse fails exactly when some text event is an orphan: read under
      `woeid`, `name` or `country` before any `place` tag opened. */
  lemma {:induction false} CityFailure(events: seq<Event>)
    ensures CityResultList(events).Failure? <==> exists i :: Orphan(events, i)
  {
    if |events| > 0 {
      var n := |events| - 1;
      var before := events[..n];
      CityFailure(before);
      ScanCounts(before);
      forall i | 0 <= i < n
        ensures Orphan(events, i) <==> Orphan(before, i)
      {
        assert events[..i] == before[..i];
      }
      assert events[..n] == before;
      if Scan(Start, before).Success? {
        assert Orphan(events, n) <==> Scan(Start, events).Failure? by {
          assert Orphan(events, n) <==> Step(Scan(Start, before).value, events[n]).Failure?;
        }
      }
    }
  }
  /** A `place` block: its start tag and every event up to the next `place`
      start tag, with exactly one `</place>` among them. */
  datatype PlaceBlock = PlaceBlock(attrs: map<string, string>, body: seq<Event>)
  {
    function Events(): seq<Event> { [StartTag("place", attrs)] + body }

    predicate Closed() { NoPlaceStart(body) && PlaceEnds(body) == 1 }

    /** The City this block describes: for each field, the last text read
        under that field's tag anywhere in the block. */
    function Parsed(): City { Filled(NewCity, Some("place"), body) }
  }

  function Concat(blocks: seq<PlaceBlock>): seq<Event>
  {
    if |blocks| == 0 then [] else Concat(blocks[..|blocks| - 1]) + blocks[|blocks| - 1].Events()
  }

  /** `Filled` one event at a time: the last event changes the City only
      when it is text read under a field tag, and then sets that field. */
  lemma FilledStep(c: City, tag0: Option<string>, events: seq<Event>)
    requires 0 < |events|
    ensures var before := events[..|events| - 1];
      var e := events[|events| - 1];
      var tag := TagAfter(tag0, before);
      Filled(c, tag0, events) ==
        if e.Text? && IsFieldTag(tag) then SetField(Filled(c, tag0, before), tag.value, e.text)
        else Filled(c, tag0, before)
  {
  }

  /** City fields: while no further `place` tag opens, the open City (the last
      created) holds, per field, the last text read under that field's tag; no
      other event changes it, and each `</place>` adds a reference to it. */
  lemma {:induction false} ScanWithinPlace(s: CityScan, events: seq<Event>)
    requires s.Valid() && 0 < |s.objects|
    requires NoPlaceStart(events)
    ensures var last := |s.objects| - 1;
      Scan(s, events) == Success(CityScan(
        s.objects[last := Filled(s.objects[last], s.currentTag, events)],
        TagAfter(s.currentTag, events),
        s.result + Repeat(Some(last), PlaceEnds(events))))
  {
    var last := |s.objects| - 1;
    if |events| == 0 {
      assert s.objects[last := s.objects[last]] == s.objects;
      assert s.result + [] == s.result;
    } else {
      var n := |events| - 1;
      var before := events[..n];
      var e := events[n];
      assert NoPlaceStart(before) by {
        forall i | 0 <= i < |before| ensures !IsPlaceStart(before[i]) {
          assert before[i] == events[i];
        }
      }
      ScanWithinPlace(s, before);
      FilledStep(s.objects[last], s.currentTag, events);
      var t := Scan(s, before).value;
      assert Scan(s, events) == Step(t, e);
      assert t.currentTag == TagAfter(s.currentTag, before);
      assert !IsPlaceStart(e);
      var c := s.objects[last];
      var reps := Repeat(Some(last), PlaceEnds(before));
      var filled := s.objects[last := Filled(c, s.currentTag, before)];
      assert t == CityScan(filled, TagAfter(s.currentTag, before), s.result + reps);
      match e
      case StartTag(name, _) =>
        assert PlaceEnds(events) == PlaceEnds(before);
        assert Filled(c, s.currentTag, events) == Filled(c, s.currentTag, before);
      case Text(text) =>
        assert PlaceEnds(events) == PlaceEnds(before);
        assert TagAfter(s.currentTag, events) == TagAfter(s.currentTag, before);
        var tag := TagAfter(s.currentTag, before);
        if IsFieldTag(tag) {
          var updated := SetField(Filled(c, s.currentTag, before), tag.value, text);
          assert filled[last] == Filled(c, s.currentTag, before);
          assert filled[last := updated] == s.objects[last := updated];
          assert Step(t, e) == Success(t.(objects := filled[last := updated]));
        } else {
          assert Filled(c, s.currentTag, events) == Filled(c, s.currentTag, before);
        }
      case EndTag(name) =>
        assert Filled(c, s.currentTag, events) == Filled(c, s.currentTag, before);
        assert TagAfter(s.currentTag, events) == TagAfter(s.currentTag, before);
        if name == "place" {
          assert PlaceEnds(events) == PlaceEnds(before) + 1;
          assert Repeat(Some(last), PlaceEnds(events)) == reps + [Some(last)];
          assert s.result + reps + [Some(last)] == s.result + (reps + [Some(last)]);
        } else {
          assert PlaceEnds(events) == PlaceEnds(before);
        }
    }
  }

  /** The open City is filled from the events after its `place` start tag. */
  lemma OpenCityFields(before: seq<Event>, attrs: map<string, string>, after: seq<Event>)
    requires NoPlaceStart(after)
    requires Scan(Start, before + [StartTag("place", attrs)] + after).Success?
    ensures var s := Scan(Start, before + [StartTag("place", attrs)] + after).value;
      0 < |s.objects| && s.objects[|s.objects| - 1] == Filled(NewCity, Some("place"), after)
  {
    var open := [StartTag("place", attrs)];
    ScanAppend(Start, before + open, after);
    ScanAppend(Start, before, open);
    assert open[..0] == [];
    var t := Scan(Start, before + open).value;
    ScanWithinPlace(t, after);
  }

  /** City j is block j's, and result entry j refers to it. */
  ghost predicate HoldsBlocks(s: CityScan, blocks: seq<PlaceBlock>)
  {
    |s.objects| == |s.result| == |blocks| &&
    forall j :: 0 <= j < |blocks| ==> s.objects[j] == blocks[j].Parsed() && s.result[j] == Some(j)
  }

  /** One more block: its City and its reference go at the end. */
  lemma HoldsBlocksSnoc(t: CityScan, blocks: seq<PlaceBlock>, v: CityScan)
    requires 0 < |blocks| && HoldsBlocks(t, blocks[..|blocks| - 1])
    requires v.objects == t.objects + [blocks[|blocks| - 1].Parsed()]
    requires v.result == t.result + [Some(|blocks| - 1)]
    ensures HoldsBlocks(v, blocks)
  {
    var n := |blocks| - 1;
    forall j | 0 <= j < |blocks|
      ensures v.objects[j] == blocks[j].Parsed() && v.result[j] == Some(j)
    {
      if j < n {
        assert blocks[..n][j] == blocks[j];
        assert v.objects[j] == t.objects[j] && v.result[j] == t.result[j];
      }
    }
  }

  /** One closed `place` block creates one City, filled from the block, and
      adds one reference to it. */
  lemma ScanBlock(t: CityScan, b: PlaceBlock)
    requires t.Valid() && b.Closed()
    ensures Scan(t, b.Events()) == Success(CityScan(
      t.objects + [b.Parsed()], TagAfter(Some("place"), b.body), t.result + [Some(|t.objects|)]))
  {
    var open := [StartTag("place", b.attrs)];
    ScanAppend(t, open, b.body);
    assert open[..0] == [];
    var u := t.(objects := t.objects + [NewCity], currentTag := Some("place"));
    assert Scan(t, open) == Success(u);
    ScanWithinPlace(u, b.body);
    assert Repeat(Some(|t.objects|), 1) == [Some(|t.objects|)];
    assert u.objects[|t.objects| := b.Parsed()] == t.objects + [b.Parsed()];
  }

  /** A closed block after a successful scan adds its City and one reference. */
  lemma ScanAfterBlocks(preamble: seq<Event>, front: seq<Event>, b: PlaceBlock, t: CityScan)
    requires Scan(Start, preamble + front) == Success(t) && t.Valid() && b.Closed()
    ensures var r := Scan(Start, preamble + (front + b.Events()));
      r.Success? && r.value.objects == t.objects + [b.Parsed()] && r.value.result == t.result + [Some(|t.objects|)]
  {
    assert preamble + (front + b.Events()) == (preamble + front) + b.Events();
    ScanAppend(Start, preamble + front, b.Events());
    ScanBlock(t, b);
  }

  /** Scanning `place` blocks after a preamble without `place` tags: block j
      creates City j and adds one reference to it. */
  lemma {:induction false} ScanBlocks(preamble: seq<Event>, blocks: seq<PlaceBlock>)
    requires PlaceStarts(preamble) == 0 && PlaceEnds(preamble) == 0 && Scan(Start, preamble).Success?
    requires forall j :: 0 <= j < |blocks| ==> blocks[j].Closed()
    ensures Scan(Start, preamble + Concat(blocks)).Success?
    ensures HoldsBlocks(Scan(Start, preamble + Concat(blocks)).value, blocks)
  {
    if |blocks| == 0 {
      ScanCounts(preamble);
      assert preamble + Concat(blocks) == preamble;
    } else {
      var n := |blocks| - 1;
      var b := blocks[n];
      assert forall j :: 0 <= j < n ==> blocks[..n][j] == blocks[j];
      ScanBlocks(preamble, blocks[..n]);
      assert Concat(blocks) == Concat(blocks[..n]) + b.Events();
      var t := Scan(Start, preamble + Concat(blocks[..n])).value;
      ScanAfterBlocks(preamble, Concat(blocks[..n]), b, t);
      HoldsBlocksSnoc(t, blocks, Scan(Start, preamble + Concat(blocks)).value);
    }
  }

  /** City count and order: a document made of N `place` blocks yields N
      cities, the j-th filled from the j-th block. */
  lemma PlaceBlocksGiveCities(preamble: seq<Event>, blocks: seq<PlaceBlock>)
    requires PlaceStarts(preamble) == 0 && PlaceEnds(preamble) == 0 && CityResultList(preamble).Success?
    requires forall j :: 0 <= j < |blocks| ==> blocks[j].Closed()
    ensures CityResultList(preamble + Concat(blocks)).Success?
    ensures var cities := CityResultList(preamble + Concat(blocks)).value;
      |cities| == |blocks| && forall j :: 0 <= j < |blocks| ==> cities[j] == Some(blocks[j].Parsed())
  {
    ScanBlocks(preamble, blocks);
    var s := Scan(Start, preamble + Concat(blocks)).value;
    assert HoldsBlocks(s, blocks);
  }
}
