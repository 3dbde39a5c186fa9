/**
 * The device client of lib/wled_api.py: one `Device` per LED controller,
 * holding the cached state, info, effect and palette lists, presets and the
 * connectivity flags; the subnet discovery probe; and the `Api` registry of
 * clients keyed by `host:port`.
 *
 * Every exchange with a device goes through the shared `Http.Transport`.
 * What each client method does to the cache is given by a pure function of
 * the old cache and the network's outcome (`AfterRequest`, `AfterGetAll`,
 * ...), and the method is proved to do exactly that.
 */
module WledApi {
  import opened Options
  import opened Text
  import opened Json
  import opened Http
  import opened WledRecords

  /** Everything a client caches. */
  datatype Cache = Cache(
    state: Option<State>, info: Option<Info>,
    effects: seq<Json>, palettes: seq<Json>,
    presets: map<int, Json>,
    online: bool, lastError: Option<string>)

  const EmptyCache: Cache := Cache(None, None, [], [], map[], false, None)

  /** The cache after an exchange, and the document the exchange yields (if any). */
  datatype Exchanged = Exchanged(cache: Cache, data: Option<Json>)

  // ---------------------------------------------------------------------
  // `_request`: connectivity bookkeeping.
  // ---------------------------------------------------------------------

  /**
   * A 200 reply marks the device online and clears the error; another status
   * records "HTTP <code>" and leaves `online` alone; a timeout, a refused
   * connection or any other failure marks it offline with the cause.
   * Nothing but the two connectivity fields changes.
   */
  function AfterRequest(c: Cache, o: Outcome): (r: Exchanged)
    ensures r.cache == c.(online := r.cache.online, lastError := r.cache.lastError)
    ensures r.data.Some? <==> o.Reply? && o.status == 200
    ensures o.Reply? && o.status == 200 ==>
              r.cache.online && r.cache.lastError == None && r.data == Some(o.body)
    ensures o.Reply? && o.status != 200 ==>
              r.cache.online == c.online && r.cache.lastError == Some("HTTP " + IntToString(o.status))
    ensures o.Timeout? ==> !r.cache.online && r.cache.lastError == Some("Timeout")
    ensures o.ConnectionError? ==> !r.cache.online && r.cache.lastError == Some("Connection error")
    ensures o.Failed? ==> !r.cache.online && r.cache.lastError == Some(o.message)
  {
    match o
    case Reply(status, body) =>
      if status == 200 then Exchanged(c.(online := true, lastError := None), Some(body))
      else Exchanged(c.(lastError := Some("HTTP " + IntToString(status))), None)
    case Timeout => Exchanged(c.(online := false, lastError := Some("Timeout")), None)
    case ConnectionError => Exchanged(c.(online := false, lastError := Some("Connection error")), None)
    case Failed(message) => Exchanged(c.(online := false, lastError := Some(message)), None)
  }

  /** `if data:` on the document an exchange yields. */
  predicate Succeeded(e: Exchanged) {
    e.data.Some? && Truthy(e.data.value)
  }

  // ---------------------------------------------------------------------
  // `get_all`, `get_state`, `get_info`, `set_state`.
  // ---------------------------------------------------------------------

  /** An effect or palette name worth listing: `e and e != '-'`. */
  predicate Listed(e: Json) {
    Truthy(e) && e != Str("-")
  }

  /** `[e for e in items if e and e != '-']`. */
  function ListedNames(items: seq<Json>): (r: seq<Json>)
    ensures |r| <= |items|
    ensures forall x :: x in r <==> x in items && Listed(x)
  {
    if items == [] then []
    else
      var init := ListedNames(items[..|items| - 1]);
      var last := items[|items| - 1];
      assert items == items[..|items| - 1] + [last];
      if Listed(last) then init + [last] else init
  }

  /** The filter keeps order and repeats: it distributes over concatenation. */
  lemma {:induction false} ListedNamesAppend(a: seq<Json>, b: seq<Json>)
    ensures ListedNames(a + b) == ListedNames(a) + ListedNames(b)
    decreases |b|
  {
    if b == [] {
      assert a + b == a;
    } else {
      var init := b[..|b| - 1];
      assert (a + b)[..|a + b| - 1] == a + init;
      assert (a + b)[|a + b| - 1] == b[|b| - 1];
      ListedNamesAppend(a, init);
    }
  }

  /** A single item is kept exactly when it is `Listed`. */
  lemma ListedNamesOne(x: Json)
    ensures ListedNames([x]) == if Listed(x) then [x] else []
  {
    assert [x][..0] == [];
  }

  /** How a client call ends: with its return value, or by raising. */
  datatype Completion<T> = Returned(value: T) | Threw

  /** `key in data`, then `data[key]`, on the document `get_all` receives. */
  datatype Probe = Absent | Present(value: Json) | Raises

  /**
   * On an object, a member is found or not. A list answers `in` by its
   * elements and a string by its substrings, but indexing either by a key
   * raises. `in` on a number or a flag raises.
   */
  function ProbeKey(data: Json, key: string): (p: Probe)
    ensures data.Obj? ==> !p.Raises? && (p.Present? <==> Has(data, key))
    ensures data.Obj? && p.Present? ==> p.value == Get(data, key).value
    ensures !data.Obj? ==> !p.Present?
    ensures data.Arr? ==> (p.Raises? <==> Str(key) in data.items)
    ensures data.Str? ==> (p.Raises? <==> IsSubstring(key, data.s))
    ensures data.Int? || data.Bool? || data.Null? ==> p.Raises?
  {
    match data
    case Obj(_) => if Has(data, key) then Present(Get(data, key).value) else Absent
    case Arr(items) => if Str(key) in items then Raises else Absent
    case Str(s) => if IsSubstring(key, s) then Raises else Absent
    case _ => Raises
  }

  /** `for e in v`: a list's elements, a string's characters, a dict's keys;
      `None` when `v` is not iterable. */
  function Iterated(v: Json): (r: Option<seq<Json>>)
    ensures r.None? <==> !(v.Arr? || v.Str? || v.Obj?)
    ensures v.Arr? ==> r == Some(v.items)
    ensures v.Str? ==> |r.value| == |v.s| && forall i :: 0 <= i < |v.s| ==> r.value[i] == Str([v.s[i]])
    ensures v.Obj? ==> (|r.value| == |DictItems(v.members)|
                        && forall i :: 0 <= i < |r.value| ==> r.value[i] == Str(DictItems(v.members)[i].key))
  {
    match v
    case Arr(items) => Some(items)
    case Str(s) => Some(seq(|s|, i requires 0 <= i < |s| => Str([s[i]])))
    case Obj(ms) =>
      var d := DictItems(ms);
      Some(seq(|d|, i requires 0 <= i < |d| => Str(d[i].key)))
    case _ => None
  }

  /** `if 'state' in data: self._state = WLEDState.from_json(data['state'])`; `None` when that raises. */
  function WithState(c: Cache, data: Json): (r: Option<Cache>)
    ensures r.Some? ==> r.value == c.(state := r.value.state)
  {
    match ProbeKey(data, "state")
    case Absent => Some(c)
    case Raises => None
    case Present(v) => if StateDecodes(v) then Some(c.(state := Some(DecodeState(v)))) else None
  }

  /** The `info` section, likewise. */
  function WithInfo(c: Cache, data: Json): (r: Option<Cache>)
    ensures r.Some? ==> r.value == c.(info := r.value.info)
  {
    match ProbeKey(data, "info")
    case Absent => Some(c)
    case Raises => None
    case Present(v) => if InfoDecodes(v) then Some(c.(info := Some(DecodeInfo(v)))) else None
  }

  /** `self._effects = [e for e in data['effects'] if e and e != '-']`. */
  function WithEffects(c: Cache, data: Json): (r: Option<Cache>)
    ensures r.Some? ==> r.value == c.(effects := r.value.effects)
  {
    match ProbeKey(data, "effects")
    case Absent => Some(c)
    case Raises => None
    case Present(v) =>
      match Iterated(v)
      case Some(items) => Some(c.(effects := ListedNames(items)))
      case None => None
  }

  /** The `palettes` section, likewise. */
  function WithPalettes(c: Cache, data: Json): (r: Option<Cache>)
    ensures r.Some? ==> r.value == c.(palettes := r.value.palettes)
  {
    match ProbeKey(data, "palettes")
    case Absent => Some(c)
    case Raises => None
    case Present(v) =>
      match Iterated(v)
      case Some(items) => Some(c.(palettes := ListedNames(items)))
      case None => None
  }

  /** The effect and palette sections, after `state` and `info`. */
  function ApplyLists(c: Cache, data: Json): (r: (Cache, bool))
    ensures r.0 == c.(effects := r.0.effects, palettes := r.0.palettes)
    ensures !r.1 ==> r.0.palettes == c.palettes
  {
    match WithEffects(c, data)
    case None => (c, false)
    case Some(c3) =>
      match WithPalettes(c3, data)
      case None => (c3, false)
      case Some(c4) => (c4, true)
  }

  /** Every section an object document carries can be read without raising. */
  predicate SectionsDecode(data: Json) {
    && (Has(data, "state") ==> StateDecodes(Get(data, "state").value))
    && (Has(data, "info") ==> InfoDecodes(Get(data, "info").value))
    && (Has(data, "effects") ==> Iterated(Get(data, "effects").value).Some?)
    && (Has(data, "palettes") ==> Iterated(Get(data, "palettes").value).Some?)
  }

  /** A document that is not an object carries none of the four section names. */
  predicate NoSectionNames(data: Json) {
    && ProbeKey(data, "state").Absent? && ProbeKey(data, "info").Absent?
    && ProbeKey(data, "effects").Absent? && ProbeKey(data, "palettes").Absent?
  }

  /**
   * The sections of the consolidated document applied in order; one that
   * raises stops `get_all` there, the sections before it staying applied.
   * The flag says whether all four ran.
   */
  function ApplyAll(c: Cache, data: Json): (r: (Cache, bool))
    ensures r.0.online == c.online && r.0.lastError == c.lastError && r.0.presets == c.presets
    ensures !r.1 ==> r.0.palettes == c.palettes
  {
    match WithState(c, data)
    case None => (c, false)
    case Some(c1) =>
      match WithInfo(c1, data)
      case None => (c1, false)
      case Some(c2) => ApplyLists(c2, data)
  }

  /** On an object, `get_all` runs to the end exactly when every section it carries
      decodes, and then each carried section replaces its part of the cache. */
  lemma ApplyAllObject(c: Cache, data: Json)
    requires data.Obj?
    ensures var r := ApplyAll(c, data);
            && (r.1 <==> SectionsDecode(data))
            && (r.1 ==>
              && r.0.state == (if Has(data, "state") then Some(DecodeState(Get(data, "state").value)) else c.state)
              && r.0.info == (if Has(data, "info") then Some(DecodeInfo(Get(data, "info").value)) else c.info)
              && r.0.effects == (if Has(data, "effects") then ListedNames(Iterated(Get(data, "effects").value).value)
                                 else c.effects)
              && r.0.palettes == (if Has(data, "palettes") then ListedNames(Iterated(Get(data, "palettes").value).value)
                                  else c.palettes))
  {
    var c1 := if Has(data, "state") && StateDecodes(Get(data, "state").value)
              then c.(state := Some(DecodeState(Get(data, "state").value))) else c;
    var c2 := if Has(data, "info") && InfoDecodes(Get(data, "info").value)
              then c1.(info := Some(DecodeInfo(Get(data, "info").value))) else c1;
    ObjectStep(c, data, "state");
    ObjectStep(c1, data, "info");
    assert SectionsDecode(data) ==> WithState(c, data) == Some(c1) && WithInfo(c1, data) == Some(c2);
    ObjectStep(c2, data, "effects");
    var c3 := if Has(data, "effects") && Iterated(Get(data, "effects").value).Some?
              then c2.(effects := ListedNames(Iterated(Get(data, "effects").value).value)) else c2;
    ObjectStep(c3, data, "palettes");
  }

  /** On an object, a section step raises exactly when its section is present and does not decode. */
  lemma ObjectStep(c: Cache, data: Json, key: string)
    requires data.Obj?
    ensures key == "state" ==> (WithState(c, data).None? <==> Has(data, key) && !StateDecodes(Get(data, key).value))
    ensures key == "info" ==> (WithInfo(c, data).None? <==> Has(data, key) && !InfoDecodes(Get(data, key).value))
    ensures key == "effects" ==> (WithEffects(c, data).None? <==> Has(data, key) && Iterated(Get(data, key).value).None?)
    ensures key == "palettes" ==> (WithPalettes(c, data).None? <==> Has(data, key) && Iterated(Get(data, key).value).None?)
  {
  }

  /** A truthy document that is not an object changes nothing: `get_all` raises
      if it names a section (`in` finds it, `data[key]` then fails) and returns
      otherwise; a number or a flag raises at the first `in`. */
  lemma ApplyAllNonObject(c: Cache, data: Json)
    requires !data.Obj?
    ensures ApplyAll(c, data) == (c, NoSectionNames(data))
  {
  }

  /** A state section that decodes stays applied even when a later section raises. */
  lemma GetAllKeepsEarlierState(c: Cache, data: Json)
    requires data.Obj? && Has(data, "state") && StateDecodes(Get(data, "state").value)
    ensures ApplyAll(c, data).0.state == Some(DecodeState(Get(data, "state").value))
  {
  }

  /** A state section that does not decode raises before anything is assigned. */
  lemma GetAllStateRaises(c: Cache, data: Json)
    requires data.Obj? && Has(data, "state") && !StateDecodes(Get(data, "state").value)
    ensures ApplyAll(c, data) == (c, false)
  {
  }

  /** `get_all`: the cache afterwards, and whether it returns `True`, `False` or raises. */
  function AfterGetAll(c: Cache, o: Outcome): (r: (Cache, Completion<bool>))
    ensures var e := AfterRequest(c, o);
            && (!Succeeded(e) ==> r == (e.cache, Returned(false)))
            && (Succeeded(e) ==> r.1 != Returned(false) && (r.1 == Returned(true) <==> ApplyAll(e.cache, o.body).1))
            && (Succeeded(e) ==> r.0 == ApplyAll(e.cache, o.body).0)
  {
    var e := AfterRequest(c, o);
    if Succeeded(e) then
      var a := ApplyAll(e.cache, e.data.value);
      (a.0, if a.1 then Returned(true) else Threw)
    else (e.cache, Returned(false))
  }

  /** `get_state`: a truthy document replaces the cached state wholesale, or raises. */
  function AfterGetState(c: Cache, o: Outcome): (r: (Cache, Completion<Option<State>>))
    ensures r.0 == AfterRequest(c, o).cache.(state := r.0.state)
    ensures r.1 == Returned(None) <==> !Succeeded(AfterRequest(c, o))
    ensures r.1.Threw? <==> Succeeded(AfterRequest(c, o)) && !StateDecodes(o.body)
    ensures r.1.Returned? && r.1.value.Some? ==> r.0.state == r.1.value && r.1.value.value == DecodeState(o.body)
    ensures !(r.1.Returned? && r.1.value.Some?) ==> r.0.state == c.state
  {
    var e := AfterRequest(c, o);
    if Succeeded(e) then
      if StateDecodes(e.data.value) then
        var st := DecodeState(e.data.value);
        (e.cache.(state := Some(st)), Returned(Some(st)))
      else (e.cache, Threw)
    else (e.cache, Returned(None))
  }

  /** `get_info`: a truthy document replaces the cached info wholesale, or raises. */
  function AfterGetInfo(c: Cache, o: Outcome): (r: (Cache, Completion<Option<Info>>))
    ensures r.0 == AfterRequest(c, o).cache.(info := r.0.info)
    ensures r.1 == Returned(None) <==> !Succeeded(AfterRequest(c, o))
    ensures r.1.Threw? <==> Succeeded(AfterRequest(c, o)) && !InfoDecodes(o.body)
    ensures r.1.Returned? && r.1.value.Some? ==> r.0.info == r.1.value && r.1.value.value == DecodeInfo(o.body)
    ensures !(r.1.Returned? && r.1.value.Some?) ==> r.0.info == c.info
  {
    var e := AfterRequest(c, o);
    if Succeeded(e) then
      if InfoDecodes(e.data.value) then
        var info := DecodeInfo(e.data.value);
        (e.cache.(info := Some(info)), Returned(Some(info)))
      else (e.cache, Threw)
    else (e.cache, Returned(None))
  }

  /** `set_state`: the device's answer, not the request, becomes the cached state;
      an answer that does not decode raises. */
  function AfterSetState(c: Cache, o: Outcome): (r: (Cache, Completion<bool>))
    ensures r.0 == AfterRequest(c, o).cache.(state := r.0.state)
    ensures r.1 == Returned(false) <==> !Succeeded(AfterRequest(c, o))
    ensures r.1.Threw? <==> Succeeded(AfterRequest(c, o)) && !StateDecodes(o.body)
    ensures r.1 == Returned(true) ==> r.0.state == Some(DecodeState(o.body))
    ensures r.1 != Returned(true) ==> r.0.state == c.state
  {
    var e := AfterRequest(c, o);
    if Succeeded(e) then
      if StateDecodes(e.data.value) then (e.cache.(state := Some(DecodeState(e.data.value))), Returned(true))
      else (e.cache, Threw)
    else (e.cache, Returned(false))
  }

  /** A failed or empty answer never touches cached state, info, lists or presets. */
  lemma FailureKeepsCache(c: Cache, o: Outcome)
    requires !Succeeded(AfterRequest(c, o))
    ensures var e := AfterRequest(c, o);
      && AfterGetAll(c, o) == (e.cache, Returned(false))
      && AfterGetState(c, o) == (e.cache, Returned(None))
      && AfterGetInfo(c, o) == (e.cache, Returned(None))
      && AfterSetState(c, o) == (e.cache, Returned(false))
    ensures var c' := AfterRequest(c, o).cache;
      c'.state == c.state && c'.info == c.info && c'.effects == c.effects
      && c'.palettes == c.palettes && c'.presets == c.presets
  {
  }

  /** A truthy answer to `get_state` that decodes replaces the cached state by its decoding. */
  lemma GetStateReplaces(c: Cache, o: Outcome)
    requires o.Reply? && o.status == 200 && Truthy(o.body) && StateDecodes(o.body)
    ensures AfterGetState(c, o).0.state == Some(DecodeState(o.body))
    ensures AfterGetState(c, o).1 == Returned(AfterGetState(c, o).0.state)
    ensures AfterGetState(c, o).0.info == c.info && AfterGetState(c, o).0.online
  {
  }

  /** A truthy answer to `get_state` that does not decode raises after `_request`
      has marked the device online: the cached state stays. */
  lemma GetStateRaises(c: Cache, o: Outcome)
    requires o.Reply? && o.status == 200 && Truthy(o.body) && !StateDecodes(o.body)
    ensures AfterGetState(c, o) == (c.(online := true, lastError := None), Threw)
  {
  }

  /** Effect and palette lists hold no empty name and no "-". */
  predicate CleanLists(c: Cache) {
    (forall i :: 0 <= i < |c.effects| ==> Listed(c.effects[i]))
    && (forall i :: 0 <= i < |c.palettes| ==> Listed(c.palettes[i]))
  }

  /** Each section step keeps the lists clean. */
  lemma SectionsKeepListsClean(c: Cache, data: Json)
    requires CleanLists(c)
    ensures WithState(c, data).Some? ==> CleanLists(WithState(c, data).value)
    ensures WithInfo(c, data).Some? ==> CleanLists(WithInfo(c, data).value)
    ensures WithEffects(c, data).Some? ==> CleanLists(WithEffects(c, data).value)
    ensures WithPalettes(c, data).Some? ==> CleanLists(WithPalettes(c, data).value)
  {
    if WithEffects(c, data).Some? {
      var r := WithEffects(c, data).value;
      forall i | 0 <= i < |r.effects| ensures Listed(r.effects[i]) {
        assert r.effects[i] in r.effects;
      }
    }
    if WithPalettes(c, data).Some? {
      var r := WithPalettes(c, data).value;
      forall i | 0 <= i < |r.palettes| ensures Listed(r.palettes[i]) {
        assert r.palettes[i] in r.palettes;
      }
    }
  }

  /** A clean cache stays clean through `get_all`, whatever the device answers,
      whether or not a section raises. */
  lemma GetAllKeepsListsClean(c: Cache, o: Outcome)
    requires CleanLists(c)
    ensures CleanLists(AfterGetAll(c, o).0)
    ensures forall i :: 0 <= i < |AfterGetAll(c, o).0.effects| ==>
              AfterGetAll(c, o).0.effects[i] != Str("") && AfterGetAll(c, o).0.effects[i] != Str("-")
  {
    var e := AfterRequest(c, o);
    assert CleanLists(e.cache);
    if Succeeded(e) {
      var d := e.data.value;
      SectionsKeepListsClean(e.cache, d);
      if WithState(e.cache, d).Some? {
        var c1 := WithState(e.cache, d).value;
        SectionsKeepListsClean(c1, d);
        if WithInfo(c1, d).Some? {
          var c2 := WithInfo(c1, d).value;
          SectionsKeepListsClean(c2, d);
          if WithEffects(c2, d).Some? {
            SectionsKeepListsClean(WithEffects(c2, d).value, d);
          }
        }
      }
    }
  }

  // ---------------------------------------------------------------------
  // `get_presets`.
  // ---------------------------------------------------------------------

  /** A member of /presets.json that describes a preset: an object with `n`. */
  predicate NamesPreset(m: Member) {
    m.value.Obj? && Has(m.value, "n")
  }

  /**
   * The presets named by the members of a document, each under the id its
   * key parses to; a key that does not parse is skipped and later members win.
   * The key parser is a parameter so that the lemmas below hold for any parser.
   */
  function PresetsBy(ms: seq<Member>, parse: string -> Option<int>): map<int, Json> {
    if ms == [] then map[]
    else
      var init := PresetsBy(ms[..|ms| - 1], parse);
      var m := ms[|ms| - 1];
      if NamesPreset(m) && parse(m.key).Some? then init[parse(m.key).value := Get(m.value, "n").value]
      else init
  }

  /** `int(key)` for every key of the dict the document decodes to. */
  function PresetsOf(ms: seq<Member>): map<int, Json> {
    PresetsBy(DictItems(ms), ParseInt)
  }

  /** The loop of `get_presets` over `data.items()`. */
  method ScanPresets(ms: seq<Member>) returns (found: map<int, Json>)
    ensures found == PresetsOf(ms)
  {
    var items := DictItems(ms);
    found := map[];
    var i := 0;
    while i < |items|
      invariant 0 <= i <= |items|
      invariant found == PresetsBy(items[..i], ParseInt)
    {
      assert items[..i + 1][..i] == items[..i];
      var m := items[i];
      if NamesPreset(m) {
        match ParseInt(m.key)
        case Some(id) => found := found[id := Get(m.value, "n").value];
        case None =>
      }
      i := i + 1;
    }
    assert items[..|items|] == items;
  }

  /** An id is a preset exactly when some member describing a preset has a key parsing to it. */
  lemma {:induction false} PresetsByDomain(ms: seq<Member>, parse: string -> Option<int>, id: int)
    ensures id in PresetsBy(ms, parse) <==>
              exists i :: 0 <= i < |ms| && NamesPreset(ms[i]) && parse(ms[i].key) == Some(id)
  {
    if ms != [] {
      var init := ms[..|ms| - 1];
      var last := ms[|ms| - 1];
      PresetsByDomain(init, parse, id);
      if id in PresetsBy(ms, parse) && !(NamesPreset(last) && parse(last.key) == Some(id)) {
        var i :| 0 <= i < |init| && NamesPreset(init[i]) && parse(init[i].key) == Some(id);
        assert ms[i] == init[i];
      }
      if exists i :: 0 <= i < |ms| && NamesPreset(ms[i]) && parse(ms[i].key) == Some(id) {
        var i :| 0 <= i < |ms| && NamesPreset(ms[i]) && parse(ms[i].key) == Some(id);
        if i < |init| {
          assert init[i] == ms[i];
        }
      }
    }
  }

  /** Each preset's name is the `n` of the last member whose key parses to its id. */
  lemma {:induction false} PresetsByValue(ms: seq<Member>, parse: string -> Option<int>, i: nat)
    requires i < |ms| && NamesPreset(ms[i]) && parse(ms[i].key).Some?
    requires forall k :: i < k < |ms| && NamesPreset(ms[k]) ==> parse(ms[k].key) != parse(ms[i].key)
    ensures parse(ms[i].key).value in PresetsBy(ms, parse)
    ensures PresetsBy(ms, parse)[parse(ms[i].key).value] == Get(ms[i].value, "n").value
  {
    if i < |ms| - 1 {
      var init := ms[..|ms| - 1];
      assert init[i] == ms[i];
      forall k | i < k < |init| && NamesPreset(init[k]) ensures parse(init[k].key) != parse(init[i].key) {
        assert init[k] == ms[k];
      }
      PresetsByValue(init, parse, i);
    }
  }

  /** The value key `key` finds in the document describes a preset. */
  predicate NamesPresetAt(ms: seq<Member>, key: string) {
    Lookup(ms, key).Some? && NamesPreset(Member(key, Lookup(ms, key).value))
  }

  /** Each dict entry that describes a preset comes from a key of the document. */
  lemma DictEntryInDocument(ms: seq<Member>, j: nat)
    requires j < |DictItems(ms)| && NamesPreset(DictItems(ms)[j])
    ensures exists i :: 0 <= i < |ms| && ms[i].key == DictItems(ms)[j].key && NamesPresetAt(ms, ms[i].key)
  {
    var d := DictItems(ms);
    DictItemsLookup(ms);
    LookupDistinct(d, j);
    LookupSome(ms, d[j].key);
  }

  /** Each key of the document has its dict entry. */
  lemma DocumentKeyInDict(ms: seq<Member>, i: nat)
    requires i < |ms|
    ensures Lookup(ms, ms[i].key).Some? && KeyIndex(DictItems(ms), ms[i].key).Some?
    ensures DictItems(ms)[KeyIndex(DictItems(ms), ms[i].key).value]
            == Member(ms[i].key, Lookup(ms, ms[i].key).value)
  {
    var d := DictItems(ms);
    DictItemsLookup(ms);
    LookupNone(ms, ms[i].key);
    LookupInDistinct(d, ms[i].key);
  }

  /** In the document's own terms: an id is a preset exactly when some key parses
      to it and the value that key finds, its last member's, is an object with `n`. */
  lemma PresetsOfDomain(ms: seq<Member>, id: int)
    ensures id in PresetsOf(ms) <==>
              exists i :: 0 <= i < |ms| && ParseInt(ms[i].key) == Some(id) && NamesPresetAt(ms, ms[i].key)
  {
    var d := DictItems(ms);
    PresetsByDomain(d, ParseInt, id);
    if id in PresetsOf(ms) {
      var j :| 0 <= j < |d| && NamesPreset(d[j]) && ParseInt(d[j].key) == Some(id);
      DictEntryInDocument(ms, j);
    }
    if exists i :: 0 <= i < |ms| && ParseInt(ms[i].key) == Some(id) && NamesPresetAt(ms, ms[i].key) {
      var i :| 0 <= i < |ms| && ParseInt(ms[i].key) == Some(id) && NamesPresetAt(ms, ms[i].key);
      DocumentKeyInDict(ms, i);
      var j := KeyIndex(d, ms[i].key).value;
      assert NamesPreset(d[j]) && ParseInt(d[j].key) == Some(id);
    }
  }

  /** When only one key of the document parses to an id, the preset's name is the
      `n` of the last member carrying that key. */
  lemma PresetsOfValue(ms: seq<Member>, i: nat)
    requires i < |ms| && ParseInt(ms[i].key).Some? && NamesPresetAt(ms, ms[i].key)
    requires forall k :: 0 <= k < |ms| && ParseInt(ms[k].key) == ParseInt(ms[i].key) ==> ms[k].key == ms[i].key
    ensures ParseInt(ms[i].key).value in PresetsOf(ms)
    ensures PresetsOf(ms)[ParseInt(ms[i].key).value] == Get(Lookup(ms, ms[i].key).value, "n").value
  {
    var d := DictItems(ms);
    DictItemsLookup(ms);
    DocumentKeyInDict(ms, i);
    var j := KeyIndex(d, ms[i].key).value;
    forall k | j < k < |d| && NamesPreset(d[k]) ensures ParseInt(d[k].key) != ParseInt(d[j].key) {
      DictEntryInDocument(ms, k);
    }
    PresetsByValue(d, ParseInt, j);
  }

  /** A repeated key is one dict entry holding the last value: here the preset
      named by the first member is overridden by a plain number and disappears. */
  lemma RepeatedKeyOverrides()
    ensures PresetsOf([Member("1", Obj([Member("n", Str("a"))])), Member("1", Int(5))]) == map[]
  {
    var ms := [Member("1", Obj([Member("n", Str("a"))])), Member("1", Int(5))];
    assert ms[..1][..0] == [];
    assert DictItems(ms[..1]) == [ms[0]];
    assert KeyIndex([ms[0]], "1") == Some(0);
    var d := [Member("1", Int(5))];
    assert DictItems(ms) == d;
    assert d[..0] == [] && !NamesPreset(d[0]);
  }

  /** The presets `get_presets` returns for the answer `o`: {} unless it is a 200 with an object. */
  function PresetsFound(o: Outcome): map<int, Json> {
    match o
    case Reply(200, Obj(ms)) => PresetsOf(ms)
    case _ => map[]
  }

  /** The cache after `get_presets`: what it returns is cached only from a 200 with an object. */
  function AfterGetPresets(c: Cache, o: Outcome): Cache {
    match o
    case Reply(200, Obj(ms)) => c.(presets := PresetsFound(o))
    case _ => c
  }

  /** Presets are fetched without `_request`: connectivity is never touched; a
      failed fetch returns {} and keeps the cached presets. */
  lemma GetPresetsKeepsConnectivity(c: Cache, o: Outcome)
    ensures AfterGetPresets(c, o).online == c.online
    ensures AfterGetPresets(c, o).lastError == c.lastError
    ensures AfterGetPresets(c, o).state == c.state
    ensures !(o.Reply? && o.status == 200 && o.body.Obj?) ==> AfterGetPresets(c, o) == c && PresetsFound(o) == map[]
  {
  }

  // ---------------------------------------------------------------------
  // Argument builders of the `set_*` helpers.
  // ---------------------------------------------------------------------

  /** `max(0, min(255, v))`. */
  function Clamp255(v: int): (r: int)
    ensures 0 <= r <= 255
    ensures 0 <= v <= 255 ==> r == v
    ensures v < 0 ==> r == 0
    ensures v > 255 ==> r == 255
  {
    if v < 0 then 0 else if v > 255 then 255 else v
  }

  /** The keyword arguments of a `set_state` call, in call order. */
  type Args = seq<Member>

  /** `set_power(on)`. */
  function PowerArgs(on: bool): (a: Args)
    ensures Get(Obj(a), "on") == Some(Bool(on)) && |a| == 1
  {
    [Member("on", Bool(on))]
  }

  /** `set_brightness(b)`: the level is clamped into 0..255. */
  function BrightnessArgs(b: int): (a: Args)
    ensures |a| == 1 && Get(Obj(a), "bri") == Some(Int(Clamp255(b)))
    ensures 0 <= Get(Obj(a), "bri").value.n <= 255
  {
    [Member("bri", Int(Clamp255(b)))]
  }

  /** The one segment object that `seg=[...]` arguments carry. */
  function SegmentOf(a: Args): Json {
    match Get(Obj(a), "seg")
    case Some(Arr(items)) => if |items| == 1 then items[0] else Null
    case _ => Null
  }

  /** `set_effect(fx, speed, intensity)`: speed and intensity appear only when given, clamped. */
  function EffectArgs(fx: int, speed: Option<int>, intensity: Option<int>): (a: Args)
    ensures SegmentOf(a).Obj?
    ensures Get(SegmentOf(a), "fx") == Some(Int(fx))
    ensures Has(SegmentOf(a), "sx") <==> speed.Some?
    ensures Has(SegmentOf(a), "ix") <==> intensity.Some?
    ensures speed.Some? ==> Get(SegmentOf(a), "sx") == Some(Int(Clamp255(speed.value)))
    ensures intensity.Some? ==> Get(SegmentOf(a), "ix") == Some(Int(Clamp255(intensity.value)))
    ensures |a| == 1
    ensures |SegmentOf(a).members| == 1 + (if speed.Some? then 1 else 0) + (if intensity.Some? then 1 else 0)
  {
    var sx := if speed.Some? then [Member("sx", Int(Clamp255(speed.value)))] else [];
    var ix := if intensity.Some? then [Member("ix", Int(Clamp255(intensity.value)))] else [];
    var seg := Obj([Member("fx", Int(fx))] + sx + ix);
    assert Lookup([Member("seg", Arr([seg]))], "seg") == Some(Arr([seg]));
    LookupAppend([Member("fx", Int(fx))], sx);
    LookupAppend([Member("fx", Int(fx))] + sx, ix);
    LookupNone([Member("fx", Int(fx))], "sx"); LookupNone(sx, "sx"); LookupNone(ix, "sx");
    LookupNone([Member("fx", Int(fx))], "ix"); LookupNone(sx, "ix"); LookupNone(ix, "ix");
    LookupNone(sx, "fx"); LookupNone(ix, "fx");
    [Member("seg", Arr([seg]))]
  }

  /** `set_palette(pal)`. */
  function PaletteArgs(pal: int): (a: Args)
    ensures SegmentOf(a) == Obj([Member("pal", Int(pal))])
    ensures |a| == 1
  {
    var seg := Obj([Member("pal", Int(pal))]);
    assert Lookup([Member("seg", Arr([seg]))], "seg") == Some(Arr([seg]));
    [Member("seg", Arr([seg]))]
  }

  /** `set_color(r, g, b, w)`: one colour of four channels, each clamped into 0..255. */
  function ColorArgs(r: int, g: int, b: int, w: int): (a: Args)
    ensures ColorsOf(SegmentOf(a)) == [[Clamp255(r), Clamp255(g), Clamp255(b), Clamp255(w)]]
    ensures |a| == 1 && SegmentOf(a).Obj? && |SegmentOf(a).members| == 1
  {
    var channels := [Int(Clamp255(r)), Int(Clamp255(g)), Int(Clamp255(b)), Int(Clamp255(w))];
    var seg := Obj([Member("col", Arr([Arr(channels)]))]);
    assert Lookup([Member("seg", Arr([seg]))], "seg") == Some(Arr([seg]));
    assert Lookup(seg.members, "col") == Some(Arr([Arr(channels)]));
    assert AllIntLike(channels);
    assert ColorOf(Arr(channels)) == [Clamp255(r), Clamp255(g), Clamp255(b), Clamp255(w)];
    [Member("seg", Arr([seg]))]
  }

  /** `set_preset(ps)`. */
  function PresetArgs(ps: int): (a: Args)
    ensures Get(Obj(a), "ps") == Some(Int(ps)) && |a| == 1
  {
    [Member("ps", Int(ps))]
  }

  /** `set_segment_state(id, **kwargs)`: the segment object is `{"id": id, **kwargs}`. */
  function SegmentStateArgs(id: int, kwargs: Args): (a: Args)
    ensures SegmentOf(a).Obj?
    ensures Get(SegmentOf(a), "id") == (if Has(Obj(kwargs), "id") then Get(Obj(kwargs), "id") else Some(Int(id)))
    ensures forall k :: k != "id" ==> Get(SegmentOf(a), k) == Get(Obj(kwargs), k)
  {
    var seg := Obj([Member("id", Int(id))] + kwargs);
    assert Lookup([Member("seg", Arr([seg]))], "seg") == Some(Arr([seg]));
    LookupAppend([Member("id", Int(id))], kwargs);
    forall k | k != "id"
      ensures Lookup([Member("id", Int(id))], k) == None
    {
      LookupNone([Member("id", Int(id))], k);
    }
    [Member("seg", Arr([seg]))]
  }

  /** Looking a key up in two runs of members: the later run wins. */
  lemma {:induction false} LookupAppend(a: seq<Member>, b: seq<Member>)
    ensures forall k :: Lookup(a + b, k) == (if Lookup(b, k).Some? then Lookup(b, k) else Lookup(a, k))
    decreases |b|
  {
    if b == [] {
      assert a + b == a;
    } else {
      var b' := b[..|b| - 1];
      LookupAppend(a, b');
      assert (a + b)[..|a + b| - 1] == a + b';
      assert (a + b)[|a + b| - 1] == b[|b| - 1];
    }
  }

  // ---------------------------------------------------------------------
  // The client.
  // ---------------------------------------------------------------------

  /** `f"http://{host}:{port}"`. */
  function BaseUrl(host: string, port: int): string {
    "http://" + host + ":" + IntToString(port)
  }

  class Device {
    const host: string
    const port: int
    const baseUrl: string
    const net: Transport
    var cache: Cache

    /** A new client has nothing cached and is offline. */
    constructor (host: string, port: int, net: Transport)
      ensures this.host == host && this.port == port && this.net == net
      ensures baseUrl == BaseUrl(host, port)
      ensures Snapshot() == EmptyCache
    {
      this.host := host;
      this.port := port;
      baseUrl := BaseUrl(host, port);
      this.net := net;
      cache := EmptyCache;
    }

    function Snapshot(): Cache
      reads this
    {
      cache
    }

    function Url(endpoint: string): string {
      baseUrl + endpoint
    }

    /** `_request`: one exchange, then the connectivity bookkeeping. */
    method Perform(r: Request) returns (data: Option<Json>)
      modifies this, net
      ensures net.sent == old(net.sent) + [r]
      ensures Exchanged(Snapshot(), data) == AfterRequest(old(Snapshot()), old(net.Next()))
    {
      var o := net.Exchange(r);
      var e := AfterRequest(Snapshot(), o);
      cache := e.cache;
      data := e.data;
    }

    /** `get_all`: GET /json. */
    method GetAll() returns (r: Completion<bool>)
      modifies this, net
      ensures net.sent == old(net.sent) + [HttpGet(Url("/json"))]
      ensures (Snapshot(), r) == AfterGetAll(old(Snapshot()), old(net.Next()))
    {
      var data := Perform(HttpGet(Url("/json")));
      if data.Some? && Truthy(data.value) {
        var done := ApplySections(data.value);
        r := if done then Returned(true) else Threw;
      } else {
        r := Returned(false);
      }
    }

    /** The section-by-section replacement `get_all` performs on a truthy
        document, stopping at the first section that raises. */
    method ApplySections(d: Json) returns (done: bool)
      modifies this
      ensures (Snapshot(), done) == ApplyAll(old(Snapshot()), d)
    {
      match ProbeKey(d, "state") {
        case Raises => return false;
        case Absent =>
        case Present(v) =>
          if !StateDecodes(v) {
            return false;
          }
          cache := cache.(state := Some(DecodeState(v)));
      }
      done := ApplyRest(d);
    }

    /** The sections after `state`. */
    method ApplyRest(d: Json) returns (done: bool)
      modifies this
      ensures var c := old(Snapshot());
              (Snapshot(), done) == match WithInfo(c, d)
                                    case None => (c, false)
                                    case Some(c2) => ApplyLists(c2, d)
    {
      match ProbeKey(d, "info") {
        case Raises => return false;
        case Absent =>
        case Present(v) =>
          if !InfoDecodes(v) {
            return false;
          }
          cache := cache.(info := Some(DecodeInfo(v)));
      }
      match ProbeKey(d, "effects") {
        case Raises => return false;
        case Absent =>
        case Present(v) =>
          match Iterated(v) {
            case None => return false;
            case Some(items) => cache := cache.(effects := ListedNames(items));
          }
      }
      match ProbeKey(d, "palettes") {
        case Raises => return false;
        case Absent =>
        case Present(v) =>
          match Iterated(v) {
            case None => return false;
            case Some(items) => cache := cache.(palettes := ListedNames(items));
          }
      }
      done := true;
    }

    /** `get_state`: GET /json/state. */
    method GetState() returns (r: Completion<Option<State>>)
      modifies this, net
      ensures net.sent == old(net.sent) + [HttpGet(Url("/json/state"))]
      ensures (Snapshot(), r) == AfterGetState(old(Snapshot()), old(net.Next()))
    {
      var data := Perform(HttpGet(Url("/json/state")));
      if data.Some? && Truthy(data.value) {
        if !StateDecodes(data.value) {
          return Threw;
        }
        cache := cache.(state := Some(DecodeState(data.value)));
        r := Returned(cache.state);
      } else {
        r := Returned(None);
      }
    }

    /** `get_info`: GET /json/info. */
    method GetInfo() returns (r: Completion<Option<Info>>)
      modifies this, net
      ensures net.sent == old(net.sent) + [HttpGet(Url("/json/info"))]
      ensures (Snapshot(), r) == AfterGetInfo(old(Snapshot()), old(net.Next()))
    {
      var data := Perform(HttpGet(Url("/json/info")));
      if data.Some? && Truthy(data.value) {
        if !InfoDecodes(data.value) {
          return Threw;
        }
        cache := cache.(info := Some(DecodeInfo(data.value)));
        r := Returned(cache.info);
      } else {
        r := Returned(None);
      }
    }

    /** `set_state(**kwargs)`: POST /json/state with the arguments as the body. */
    method SetState(args: Args) returns (r: Completion<bool>)
      modifies this, net
      ensures net.sent == old(net.sent) + [HttpPost(Url("/json/state"), Obj(args))]
      ensures (Snapshot(), r) == AfterSetState(old(Snapshot()), old(net.Next()))
    {
      var data := Perform(HttpPost(Url("/json/state"), Obj(args)));
      if data.Some? && Truthy(data.value) {
        if !StateDecodes(data.value) {
          return Threw;
        }
        cache := cache.(state := Some(DecodeState(data.value)));
        r := Returned(true);
      } else {
        r := Returned(false);
      }
    }

    /** `get_presets`: GET /presets.json, outside `_request`. */
    method GetPresets() returns (found: map<int, Json>)
      modifies this, net
      ensures net.sent == old(net.sent) + [HttpGet(Url("/presets.json"))]
      ensures found == PresetsFound(old(net.Next()))
      ensures Snapshot() == AfterGetPresets(old(Snapshot()), old(net.Next()))
    {
      var o := net.Exchange(HttpGet(Url("/presets.json")));
      found := map[];
      if o.Reply? && o.status == 200 && o.body.Obj? {
        found := ScanPresets(o.body.members);
        cache := cache.(presets := found);
      }
    }

    /** `set_segment_state(id, **kwargs)`. */
    method SetSegmentState(id: int, kwargs: Args) returns (r: Completion<bool>)
      modifies this, net
      ensures net.sent == old(net.sent) + [HttpPost(Url("/json/state"), Obj(SegmentStateArgs(id, kwargs)))]
      ensures (Snapshot(), r) == AfterSetState(old(Snapshot()), old(net.Next()))
    {
      r := SetState(SegmentStateArgs(id, kwargs));
    }
  }

  // ---------------------------------------------------------------------
  // Discovery.
  // ---------------------------------------------------------------------

  /** A device found by the probe: `{'ip', 'port': 80, 'name', 'mac'}`. */
  datatype Discovered = Discovered(ip: string, port: int, name: Json, mac: Json)

  /** `'.'.join(ip.split('.')[:3])`. */
  function SubnetPrefix(ip: string): string {
    var parts := Split(ip, '.');
    Join(parts[..if |parts| < 3 then |parts| else 3], '.')
  }

  /** `[f"{prefix}.{i}" for i in range(1, 255)]`. */
  function CandidateIps(prefix: string): (ips: seq<string>)
    ensures |ips| == 254
    ensures forall k :: 0 <= k < 254 ==> ips[k] == prefix + "." + IntToString(k + 1)
  {
    seq(254, k requires 0 <= k < 254 => prefix + "." + IntToString(k + 1))
  }

  /** The candidates are pairwise distinct, so no address is probed twice. */
  lemma CandidatesDistinct(prefix: string, i: nat, k: nat)
    requires i < k < 254
    ensures CandidateIps(prefix)[i] != CandidateIps(prefix)[k]
  {
    var ips := CandidateIps(prefix);
    if ips[i] == ips[k] {
      var p := prefix + ".";
      assert ips[i] == p + IntToString(i + 1) && ips[k] == p + IntToString(k + 1);
      assert IntToString(i + 1) == ips[i][|p|..];
      assert IntToString(k + 1) == ips[k][|p|..];
      IntToStringInjective(i + 1, k + 1);
    }
  }

  /** `_probe_ip`: a 200 reply whose document has both `ver` and `name` is a device. */
  function ProbeResult(ip: string, o: Outcome): (r: Option<Discovered>)
    ensures r.Some? <==> o.Reply? && o.status == 200 && Has(o.body, "ver") && Has(o.body, "name")
    ensures r.Some? ==> r.value.ip == ip && r.value.port == 80 && r.value.name == Get(o.body, "name").value
  {
    match o
    case Reply(200, body) =>
      if Has(body, "ver") && Has(body, "name") then
        Some(Discovered(ip, 80, Get(body, "name").value, match Get(body, "mac") case Some(m) => m case None => Str("")))
      else None
    case _ => None
  }

  function ProbeUrl(ip: string): string {
    "http://" + ip + "/json/info"
  }

  /** The probe requests for a list of addresses, in order. */
  function ProbeRequests(ips: seq<string>): (rs: seq<Request>)
    ensures |rs| == |ips|
    ensures forall k :: 0 <= k < |ips| ==> rs[k] == HttpGet(ProbeUrl(ips[k]))
  {
    if ips == [] then []
    else
      var rs := ProbeRequests(ips[..|ips| - 1]) + [HttpGet(ProbeUrl(ips[|ips| - 1]))];
      assert forall k :: 0 <= k < |ips| - 1 ==> ips[..|ips| - 1][k] == ips[k];
      rs
  }

  /** `rs[k]` is the result of probing `ips[k]` when the probe is answered by `os[k]`. */
  predicate Probes(ips: seq<string>, os: seq<Outcome>, rs: seq<Option<Discovered>>) {
    && |os| == |ips| && |rs| == |ips|
    && forall k {:trigger ProbeResult(ips[k], os[k])} :: 0 <= k < |ips| ==> rs[k] == ProbeResult(ips[k], os[k])
  }

  function ProbeResults(ips: seq<string>, os: seq<Outcome>): (rs: seq<Option<Discovered>>)
    requires |os| == |ips|
    ensures Probes(ips, os, rs)
  {
    if |ips| == 0 then []
    else
      var n := |ips| - 1;
      ProbeResults(ips[..n], os[..n]) + [ProbeResult(ips[n], os[n])]
  }

  /** The present results among the first `n`, in order. */
  function Somes(rs: seq<Option<Discovered>>, n: nat): seq<Discovered>
    requires n <= |rs|
  {
    if n == 0 then []
    else Somes(rs, n - 1) + if rs[n - 1].Some? then [rs[n - 1].value] else []
  }

  /** A device is among the present results exactly when one of the first `n` results is that device. */
  lemma {:induction false} SomesMembers(rs: seq<Option<Discovered>>, n: nat)
    requires n <= |rs|
    ensures forall d :: d in Somes(rs, n) <==> exists k :: 0 <= k < n && rs[k] == Some(d)
  {
    if n > 0 {
      SomesMembers(rs, n - 1);
      forall d | d in Somes(rs, n)
        ensures exists k :: 0 <= k < n && rs[k] == Some(d)
      {
        if d !in Somes(rs, n - 1) {
          assert rs[n - 1] == Some(d);
        }
      }
    }
  }

  /** The devices found when the probes from the `start`-th on are answered by the script. */
  function Found(ips: seq<string>, script: seq<Outcome>, start: nat): seq<Discovered> {
    Somes(ProbeResults(ips, Answers(script, start, |ips|)), |ips|)
  }

  /** Every device found is at one of the probed addresses and reports port 80; an address
      answering like a device is found. */
  lemma FoundDevices(ips: seq<string>, script: seq<Outcome>, start: nat)
    ensures forall d :: d in Found(ips, script, start) ==> d.port == 80 && d.ip in ips
    ensures forall k :: 0 <= k < |ips| && ProbeResult(ips[k], Answer(script, start + k)).Some? ==>
              ProbeResult(ips[k], Answer(script, start + k)).value in Found(ips, script, start)
  {
    var os := Answers(script, start, |ips|);
    var rs := ProbeResults(ips, os);
    SomesMembers(rs, |ips|);
    forall d | d in Found(ips, script, start)
      ensures d.port == 80 && d.ip in ips
    {
      var k :| 0 <= k < |ips| && rs[k] == Some(d);
      assert rs[k] == ProbeResult(ips[k], os[k]);
    }
    forall k | 0 <= k < |ips| && ProbeResult(ips[k], Answer(script, start + k)).Some?
      ensures ProbeResult(ips[k], Answer(script, start + k)).value in Found(ips, script, start)
    {
      assert rs[k] == ProbeResult(ips[k], os[k]);
    }
  }

  /** The requests after `sent0` are the probes of the first `i` addresses, in order. */
  predicate ProbesSent(sent: seq<Request>, sent0: seq<Request>, ips: seq<string>, i: nat) {
    && i <= |ips|
    && |sent| == |sent0| + i
    && (forall k :: 0 <= k < |sent0| ==> sent[k] == sent0[k])
    && (forall j :: |sent0| <= j < |sent0| + i ==> sent[j] == HttpGet(ProbeUrl(ips[j - |sent0|])))
  }

  lemma ProbesSentAll(sent: seq<Request>, sent0: seq<Request>, ips: seq<string>)
    requires ProbesSent(sent, sent0, ips, |ips|)
    ensures sent == sent0 + ProbeRequests(ips)
  {
    var rs := ProbeRequests(ips);
    assert forall k :: 0 <= k < |sent| ==> sent[k] == (sent0 + rs)[k];
  }

  /** The probe loop of `discover`: every address in order, keeping the positive answers. */
  method ProbeAll(net: Transport, ips: seq<string>) returns (devices: seq<Discovered>)
    modifies net
    ensures net.sent == old(net.sent) + ProbeRequests(ips)
    ensures devices == Found(ips, net.script, |old(net.sent)|)
  {
    ghost var os := Answers(net.script, |net.sent|, |ips|);
    devices := ProbeEach(net, ips, os, ProbeResults(ips, os));
  }

  /** The loop itself, over the results `rs` the answers `os` give. */
  method ProbeEach(net: Transport, ips: seq<string>, ghost os: seq<Outcome>, ghost rs: seq<Option<Discovered>>)
    returns (devices: seq<Discovered>)
    requires os == Answers(net.script, |net.sent|, |ips|) && Probes(ips, os, rs)
    modifies net
    ensures net.sent == old(net.sent) + ProbeRequests(ips)
    ensures devices == Somes(rs, |ips|)
  {
    devices := [];
    ghost var sent0 := net.sent;
    var i := 0;
    while i < |ips|
      invariant ProbesSent(net.sent, sent0, ips, i)
      invariant devices == Somes(rs, i)
    {
      var o := net.Exchange(HttpGet(ProbeUrl(ips[i])));
      assert o == os[i];
      var d := ProbeResult(ips[i], o);
      if d.Some? {
        devices := devices + [d.value];
      }
      i := i + 1;
    }
    ProbesSentAll(net.sent, sent0, ips);
  }

  /** `discover`: with no local address nothing is probed; otherwise the 254 addresses of its /24 are probed in order. */
  method DiscoverDevices(net: Transport, localIp: Option<string>) returns (devices: seq<Discovered>)
    modifies net
    ensures localIp.None? || localIp.value == "" ==> devices == [] && net.sent == old(net.sent)
    ensures localIp.Some? && localIp.value != "" ==>
              var ips := CandidateIps(SubnetPrefix(localIp.value));
              && net.sent == old(net.sent) + ProbeRequests(ips)
              && devices == Found(ips, net.script, |old(net.sent)|)
  {
    if localIp.None? || localIp.value == "" {
      devices := [];
    } else {
      devices := ProbeAll(net, CandidateIps(SubnetPrefix(localIp.value)));
    }
  }

  // ---------------------------------------------------------------------
  // `WLEDApi`: the registry of clients.
  // ---------------------------------------------------------------------

  /** `f"{host}:{port}"`. */
  function DeviceKey(host: string, port: int): string {
    host + ":" + IntToString(port)
  }

  /** Different (host, port) pairs have different keys, even for a host containing ':'. */
  lemma DeviceKeyInjective(h1: string, p1: int, h2: string, p2: int)
    requires DeviceKey(h1, p1) == DeviceKey(h2, p2)
    ensures h1 == h2 && p1 == p2
  {
    var d1, d2 := IntToString(p1), IntToString(p2);
    var key := DeviceKey(h1, p1);
    assert ':' !in d1 && ':' !in d2 by {
      assert forall i :: 0 <= i < |d1| ==> d1[i] != ':';
      assert forall i :: 0 <= i < |d2| ==> d2[i] != ':';
    }
    assert key[|key| - |d1| - 1] == ':' && key[|key| - |d2| - 1] == ':';
    assert |d1| == |d2|;
    assert d1 == key[|key| - |d1|..] == d2;
    assert h1 == key[..|h1|] == h2;
    IntToStringInjective(p1, p2);
  }

  class Api {
    var devices: map<string, Device>
    const net: Transport

    constructor (net: Transport)
      ensures devices == map[] && this.net == net
    {
      devices := map[];
      this.net := net;
    }

    /** `add_device`: the existing client for the key, or a new one registered under it. */
    method AddDevice(host: string, port: int) returns (d: Device)
      modifies this
      ensures DeviceKey(host, port) in devices && devices[DeviceKey(host, port)] == d
      ensures DeviceKey(host, port) in old(devices) ==> devices == old(devices) && d == old(devices)[DeviceKey(host, port)]
      ensures DeviceKey(host, port) !in old(devices) ==>
                fresh(d) && devices == old(devices)[DeviceKey(host, port) := d]
                && d.host == host && d.port == port && d.net == net && d.Snapshot() == EmptyCache
    {
      var key := DeviceKey(host, port);
      if key in devices {
        d := devices[key];
      } else {
        d := new Device(host, port, net);
        devices := devices[key := d];
      }
    }

    /** `get_device`. */
    function GetDevice(host: string, port: int): (d: Option<Device>)
      reads this
      ensures d.Some? <==> DeviceKey(host, port) in devices
      ensures d.Some? ==> d.value == devices[DeviceKey(host, port)]
    {
      var key := DeviceKey(host, port);
      if key in devices then Some(devices[key]) else None
    }

    /** `remove_device`: only that key goes. */
    method RemoveDevice(host: string, port: int)
      modifies this
      ensures devices == old(devices) - {DeviceKey(host, port)}
    {
      var key := DeviceKey(host, port);
      if key in devices {
        devices := devices - {key};
      }
    }

    /** `discover`. */
    method Discover(localIp: Option<string>) returns (found: seq<Discovered>)
      modifies net
      ensures localIp.None? || localIp.value == "" ==> found == [] && net.sent == old(net.sent)
      ensures localIp.Some? && localIp.value != "" ==>
                var ips := CandidateIps(SubnetPrefix(localIp.value));
                && net.sent == old(net.sent) + ProbeRequests(ips)
                && found == Found(ips, net.script, |old(net.sent)|)
    {
      found := DiscoverDevices(net, localIp);
    }
  }
}
