/**
 * The records of the LED-controller JSON API (`WLEDSegment`, `WLEDState`,
 * `WLEDInfo` in lib/wled_api.py), their tolerant decoders and the accessors
 * derived from the main segment.
 *
 * Every field has a default. A present value is used when it has the
 * field's JSON type (an integer field also takes a boolean as 0 or 1, a
 * flag takes the truthiness of whatever is present); otherwise the default
 * is used.
 */
module WledRecords {
  import opened Options
  import opened Json

  const White: seq<int> := [255, 255, 255]

  datatype Segment = Segment(
    id: int, start: int, stop: int, length: int, on: bool,
    brightness: int, effect: int, speed: int, intensity: int, palette: int,
    colors: seq<seq<int>>)

  datatype State = State(
    on: bool, brightness: int, transition: int, preset: int, playlist: int,
    nightlightOn: bool, nightlightDuration: int, nightlightMode: int, nightlightBrightness: int,
    live: bool, syncSend: bool, syncReceive: bool, mainSegment: int,
    segments: seq<Segment>)

  datatype Info = Info(
    version: string, versionId: int, ledCount: int, maxSegments: int, name: string,
    udpPort: int, liveSupport: bool, liveMode: int, product: string, brand: string,
    mac: string, ip: string)

  predicate AllIntLike(items: seq<Json>) {
    forall i :: 0 <= i < |items| ==> IsIntLike(items[i])
  }

  /** One colour: a list of channel values, or no channels when it is not a list of integers. */
  function ColorOf(j: Json): (c: seq<int>)
    ensures j.Arr? && AllIntLike(j.items) ==> |c| == |j.items|
    ensures !(j.Arr? && AllIntLike(j.items)) ==> c == []
  {
    if j.Arr? && AllIntLike(j.items) then
      seq(|j.items|, i requires 0 <= i < |j.items| => IntValue(j.items[i]))
    else []
  }

  /** `data.get('col', [[255, 255, 255]])`. */
  function ColorsOf(j: Json): (cs: seq<seq<int>>)
    ensures !Has(j, "col") ==> cs == [White]
    ensures Has(j, "col") && Get(j, "col").value.Arr? ==> |cs| == |Get(j, "col").value.items|
  {
    match Get(j, "col")
    case Some(Arr(items)) => seq(|items|, i requires 0 <= i < |items| => ColorOf(items[i]))
    case _ => [White]
  }

  /** `WLEDSegment.from_json(data, seg_id)`. */
  function DecodeSegment(j: Json, segId: int): (s: Segment)
    ensures s.id == segId
    ensures !Has(j, "start") ==> s.start == 0
    ensures !Has(j, "stop") ==> s.stop == 0
    ensures !Has(j, "len") ==> s.length == s.stop - s.start
    ensures !Has(j, "on") ==> s.on
    ensures !Has(j, "bri") ==> s.brightness == 255
    ensures !Has(j, "fx") ==> s.effect == 0
    ensures !Has(j, "sx") ==> s.speed == 128
    ensures !Has(j, "ix") ==> s.intensity == 128
    ensures !Has(j, "pal") ==> s.palette == 0
    ensures !Has(j, "col") ==> s.colors == [White]
  {
    var start := IntOr(j, "start", 0);
    var stop := IntOr(j, "stop", 0);
    Segment(segId, start, stop, IntOr(j, "len", stop - start), BoolOr(j, "on", true),
            IntOr(j, "bri", 255), IntOr(j, "fx", 0), IntOr(j, "sx", 128),
            IntOr(j, "ix", 128), IntOr(j, "pal", 0), ColorsOf(j))
  }

  /** Segment `i` of the state is decoded from element `i` of `seg`, with id `i`. */
  function DecodeSegments(items: seq<Json>): (segs: seq<Segment>)
    ensures |segs| == |items|
    ensures forall i :: 0 <= i < |items| ==> segs[i].id == i
  {
    seq(|items|, i requires 0 <= i < |items| => DecodeSegment(items[i], i))
  }

  /** `WLEDState.from_json(data)`. */
  function DecodeState(j: Json): (st: State)
    ensures |st.segments| == |ItemsOr(j, "seg")|
    ensures forall i :: 0 <= i < |st.segments| ==> st.segments[i].id == i
    ensures !Has(j, "on") ==> !st.on
    ensures !Has(j, "bri") ==> st.brightness == 0
    ensures !Has(j, "transition") ==> st.transition == 7
    ensures !Has(j, "ps") ==> st.preset == -1
    ensures !Has(j, "pl") ==> st.playlist == -1
    ensures !Has(j, "nl") ==> !st.nightlightOn && st.nightlightDuration == 60
                              && st.nightlightMode == 0 && st.nightlightBrightness == 0
    ensures !Has(j, "udpn") ==> !st.syncSend && st.syncReceive
    ensures !Has(j, "mainseg") ==> st.mainSegment == 0
    ensures !Has(j, "seg") ==> st.segments == []
    ensures !Has(j, "lor") ==> !st.live
    ensures Get(j, "lor").Some? && Get(j, "lor").value.Int? ==>
              (st.live <==> Get(j, "lor").value.n > 0)
  {
    var nl := ObjOr(j, "nl");
    var udpn := ObjOr(j, "udpn");
    State(BoolOr(j, "on", false), IntOr(j, "bri", 0), IntOr(j, "transition", 7),
          IntOr(j, "ps", -1), IntOr(j, "pl", -1),
          BoolOr(nl, "on", false), IntOr(nl, "dur", 60), IntOr(nl, "mode", 0), IntOr(nl, "tbri", 0),
          IntOr(j, "lor", 0) > 0, BoolOr(udpn, "send", false), BoolOr(udpn, "recv", true),
          IntOr(j, "mainseg", 0), DecodeSegments(ItemsOr(j, "seg")))
  }

  /** A document with none of the fields decodes to the record's declared defaults. */
  lemma DecodeEmptyState()
    ensures DecodeState(Obj([])) == State(false, 0, 7, -1, -1, false, 60, 0, 0, false, false, true, 0, [])
  {
  }

  /** `WLEDInfo.from_json(data)`. */
  function DecodeInfo(j: Json): (info: Info)
    ensures !Has(j, "ver") ==> info.version == ""
    ensures !Has(j, "vid") ==> info.versionId == 0
    ensures !Has(j, "leds") ==> info.ledCount == 0 && info.maxSegments == 0
    ensures !Has(j, "name") ==> info.name == ""
    ensures !Has(j, "udpport") ==> info.udpPort == 21324
    ensures !Has(j, "lm") ==> !info.liveSupport
    ensures Has(j, "lm") ==> (info.liveSupport <==> Truthy(Get(j, "lm").value))
    ensures !(Has(j, "lip") && IsIntLike(Get(j, "lip").value)) ==> info.liveMode == 0
    ensures !Has(j, "product") ==> info.product == "WLED"
    ensures !Has(j, "brand") ==> info.brand == "wled"
    ensures !Has(j, "mac") ==> info.mac == ""
    ensures !Has(j, "ip") ==> info.ip == ""
  {
    var leds := ObjOr(j, "leds");
    Info(StrOr(j, "ver", ""), IntOr(j, "vid", 0), IntOr(leds, "count", 0), IntOr(leds, "maxseg", 0),
         StrOr(j, "name", ""), IntOr(j, "udpport", 21324), BoolOr(j, "lm", false),
         IntOr(j, "lip", 0), StrOr(j, "product", "WLED"), StrOr(j, "brand", "wled"),
         StrOr(j, "mac", ""), StrOr(j, "ip", ""))
  }

  // ---------------------------------------------------------------------
  // When the decoders raise.
  // ---------------------------------------------------------------------

  /** The field is absent or an integer, so arithmetic and comparison on it succeed. */
  predicate IntLikeIfPresent(j: Json, key: string) {
    !Has(j, key) || IsIntLike(Get(j, key).value)
  }

  /** The field is absent or an object, so `.get` on it succeeds. */
  predicate ObjIfPresent(j: Json, key: string) {
    !Has(j, key) || Get(j, key).value.Obj?
  }

  /** `WLEDSegment.from_json` returns: the element is an object, and `stop - start`,
      computed for the default of `len` whether or not `len` is present, succeeds. */
  predicate SegmentDecodes(j: Json) {
    j.Obj? && IntLikeIfPresent(j, "start") && IntLikeIfPresent(j, "stop")
  }

  /** `for i, seg_data in enumerate(data.get('seg', []))` and the segment decodes
      succeed: a list of decodable elements, or an empty string or object (which
      iterate as nothing). A number, a flag or `null` is not iterable; a character
      of a string or a key of an object is not a segment. */
  predicate SegmentsDecode(j: Json) {
    match Get(j, "seg")
    case None => true
    case Some(Arr(items)) => forall i :: 0 <= i < |items| ==> SegmentDecodes(items[i])
    case Some(Str(s)) => s == ""
    case Some(Obj(ms)) => ms == []
    case Some(_) => false
  }

  /** `WLEDState.from_json(data)` returns instead of raising. */
  predicate StateDecodes(j: Json) {
    && j.Obj?
    && SegmentsDecode(j)
    && ObjIfPresent(j, "nl") && ObjIfPresent(j, "udpn")
    && IntLikeIfPresent(j, "lor")
  }

  /** `WLEDInfo.from_json(data)` returns instead of raising. */
  predicate InfoDecodes(j: Json) {
    j.Obj? && ObjIfPresent(j, "leds")
  }

  // ---------------------------------------------------------------------
  // Reference encoders: the document a device would send for a record.
  // Decoding them gives the record back, so the decoders lose nothing.
  // ---------------------------------------------------------------------

  ghost function ColorJson(c: seq<int>): Json {
    Arr(seq(|c|, i requires 0 <= i < |c| => Int(c[i])))
  }

  ghost function SegmentJson(s: Segment): Json {
    Obj([Member("start", Int(s.start)), Member("stop", Int(s.stop)), Member("len", Int(s.length)),
         Member("on", Bool(s.on)), Member("bri", Int(s.brightness)), Member("fx", Int(s.effect)),
         Member("sx", Int(s.speed)), Member("ix", Int(s.intensity)), Member("pal", Int(s.palette)),
         Member("col", ColorsJson(s.colors))])
  }

  ghost function StateJson(st: State): Json {
    Obj([Member("on", Bool(st.on)), Member("bri", Int(st.brightness)),
         Member("transition", Int(st.transition)), Member("ps", Int(st.preset)),
         Member("pl", Int(st.playlist)),
         Member("nl", NightlightJson(st)), Member("udpn", SyncJson(st)),
         Member("lor", Int(if st.live then 1 else 0)), Member("mainseg", Int(st.mainSegment)),
         Member("seg", SegmentsJson(st.segments))])
  }

  ghost function InfoJson(info: Info): Json {
    Obj([Member("ver", Str(info.version)), Member("vid", Int(info.versionId)),
         Member("leds", LedsJson(info)),
         Member("name", Str(info.name)), Member("udpport", Int(info.udpPort)),
         Member("lm", Bool(info.liveSupport)), Member("lip", Int(info.liveMode)),
         Member("product", Str(info.product)), Member("brand", Str(info.brand)),
         Member("mac", Str(info.mac)), Member("ip", Str(info.ip))])
  }

  ghost function ColorsJson(cs: seq<seq<int>>): Json {
    Arr(seq(|cs|, i requires 0 <= i < |cs| => ColorJson(cs[i])))
  }

  ghost function NightlightJson(st: State): Json {
    Obj([Member("on", Bool(st.nightlightOn)), Member("dur", Int(st.nightlightDuration)),
         Member("mode", Int(st.nightlightMode)), Member("tbri", Int(st.nightlightBrightness))])
  }

  ghost function SyncJson(st: State): Json {
    Obj([Member("send", Bool(st.syncSend)), Member("recv", Bool(st.syncReceive))])
  }

  ghost function SegmentsJson(segs: seq<Segment>): Json {
    Arr(seq(|segs|, i requires 0 <= i < |segs| => SegmentJson(segs[i])))
  }

  ghost function LedsJson(info: Info): Json {
    Obj([Member("count", Int(info.ledCount)), Member("maxseg", Int(info.maxSegments))])
  }

  lemma ColorsRoundTrip(j: Json, cs: seq<seq<int>>)
    requires Get(j, "col") == Some(ColorsJson(cs))
    ensures ColorsOf(j) == cs
  {
    var items := ColorsJson(cs).items;
    forall i | 0 <= i < |cs| ensures ColorOf(items[i]) == cs[i] {
      assert AllIntLike(items[i].items);
    }
  }

  /** Any object carrying a segment's members decodes to that segment. */
  lemma DecodeSegmentFrom(j: Json, s: Segment)
    requires Get(j, "start") == Some(Int(s.start)) && Get(j, "stop") == Some(Int(s.stop))
    requires Get(j, "len") == Some(Int(s.length)) && Get(j, "on") == Some(Bool(s.on))
    requires Get(j, "bri") == Some(Int(s.brightness)) && Get(j, "fx") == Some(Int(s.effect))
    requires Get(j, "sx") == Some(Int(s.speed)) && Get(j, "ix") == Some(Int(s.intensity))
    requires Get(j, "pal") == Some(Int(s.palette)) && Get(j, "col") == Some(ColorsJson(s.colors))
    ensures DecodeSegment(j, s.id) == s
  {
    ColorsRoundTrip(j, s.colors);
  }

  /** A segment survives encoding and decoding unchanged. */
  lemma SegmentRoundTrip(s: Segment)
    ensures DecodeSegment(SegmentJson(s), s.id) == s
  {
    var ms := SegmentJson(s).members;
    assert DistinctKeys(ms);
    LookupDistinct(ms, 0); LookupDistinct(ms, 1); LookupDistinct(ms, 2); LookupDistinct(ms, 3);
    LookupDistinct(ms, 4); LookupDistinct(ms, 5); LookupDistinct(ms, 6); LookupDistinct(ms, 7);
    LookupDistinct(ms, 8); LookupDistinct(ms, 9);
    DecodeSegmentFrom(SegmentJson(s), s);
  }

  /** The nightlight object decodes to the state's nightlight fields. */
  lemma NightlightRoundTrip(st: State)
    ensures BoolOr(NightlightJson(st), "on", false) == st.nightlightOn
    ensures IntOr(NightlightJson(st), "dur", 60) == st.nightlightDuration
    ensures IntOr(NightlightJson(st), "mode", 0) == st.nightlightMode
    ensures IntOr(NightlightJson(st), "tbri", 0) == st.nightlightBrightness
  {
    var nl := NightlightJson(st);
    assert DistinctKeys(nl.members);
    LookupDistinct(nl.members, 0); LookupDistinct(nl.members, 1);
    LookupDistinct(nl.members, 2); LookupDistinct(nl.members, 3);
  }

  /** The sync object decodes to the state's sync flags. */
  lemma SyncRoundTrip(st: State)
    ensures BoolOr(SyncJson(st), "send", false) == st.syncSend
    ensures BoolOr(SyncJson(st), "recv", true) == st.syncReceive
  {
    var udpn := SyncJson(st);
    assert DistinctKeys(udpn.members);
    LookupDistinct(udpn.members, 0); LookupDistinct(udpn.members, 1);
  }

  /** Any object whose members decode to a state's fields decodes to that state. */
  lemma DecodeStateFrom(j: Json, nl: Json, udpn: Json, items: seq<Json>, st: State)
    requires Get(j, "on") == Some(Bool(st.on)) && Get(j, "bri") == Some(Int(st.brightness))
    requires Get(j, "transition") == Some(Int(st.transition)) && Get(j, "ps") == Some(Int(st.preset))
    requires Get(j, "pl") == Some(Int(st.playlist))
    requires Get(j, "nl") == Some(nl) && nl.Obj?
    requires BoolOr(nl, "on", false) == st.nightlightOn && IntOr(nl, "dur", 60) == st.nightlightDuration
    requires IntOr(nl, "mode", 0) == st.nightlightMode && IntOr(nl, "tbri", 0) == st.nightlightBrightness
    requires Get(j, "udpn") == Some(udpn) && udpn.Obj?
    requires BoolOr(udpn, "send", false) == st.syncSend && BoolOr(udpn, "recv", true) == st.syncReceive
    requires Get(j, "lor") == Some(Int(if st.live then 1 else 0))
    requires Get(j, "mainseg") == Some(Int(st.mainSegment))
    requires Get(j, "seg") == Some(Arr(items)) && DecodeSegments(items) == st.segments
    ensures DecodeState(j) == st
  {
    assert ObjOr(j, "nl") == nl && ObjOr(j, "udpn") == udpn && ItemsOr(j, "seg") == items;
    assert BoolOr(j, "on", false) == st.on && IntOr(j, "bri", 0) == st.brightness;
    assert IntOr(j, "transition", 7) == st.transition && IntOr(j, "ps", -1) == st.preset;
    assert IntOr(j, "pl", -1) == st.playlist && IntOr(j, "mainseg", 0) == st.mainSegment;
    assert (IntOr(j, "lor", 0) > 0) == st.live;
  }

  /** A list of segments numbered by position survives encoding and decoding unchanged. */
  lemma SegmentsRoundTrip(segs: seq<Segment>)
    requires forall i :: 0 <= i < |segs| ==> segs[i].id == i
    ensures DecodeSegments(SegmentsJson(segs).items) == segs
  {
    var items := SegmentsJson(segs).items;
    forall i | 0 <= i < |segs| ensures DecodeSegment(items[i], i) == segs[i] {
      SegmentRoundTrip(segs[i]);
    }
  }

  /** A state whose segment ids are their positions survives encoding and decoding unchanged. */
  lemma StateRoundTrip(st: State)
    requires forall i :: 0 <= i < |st.segments| ==> st.segments[i].id == i
    ensures DecodeState(StateJson(st)) == st
  {
    var ms := StateJson(st).members;
    assert DistinctKeys(ms);
    LookupDistinct(ms, 0); LookupDistinct(ms, 1); LookupDistinct(ms, 2); LookupDistinct(ms, 3);
    LookupDistinct(ms, 4); LookupDistinct(ms, 5); LookupDistinct(ms, 6); LookupDistinct(ms, 7);
    LookupDistinct(ms, 8); LookupDistinct(ms, 9);
    NightlightRoundTrip(st);
    SyncRoundTrip(st);
    SegmentsRoundTrip(st.segments);
    DecodeStateFrom(StateJson(st), NightlightJson(st), SyncJson(st), SegmentsJson(st.segments).items, st);
  }

  /** Any object carrying an info record's members decodes to that record. */
  lemma DecodeInfoFrom(j: Json, info: Info)
    requires Get(j, "ver") == Some(Str(info.version)) && Get(j, "vid") == Some(Int(info.versionId))
    requires Get(j, "leds") == Some(LedsJson(info)) && Get(j, "name") == Some(Str(info.name))
    requires Get(j, "udpport") == Some(Int(info.udpPort)) && Get(j, "lm") == Some(Bool(info.liveSupport))
    requires Get(j, "lip") == Some(Int(info.liveMode)) && Get(j, "product") == Some(Str(info.product))
    requires Get(j, "brand") == Some(Str(info.brand)) && Get(j, "mac") == Some(Str(info.mac))
    requires Get(j, "ip") == Some(Str(info.ip))
    ensures DecodeInfo(j) == info
  {
    LedsRoundTrip(info);
    assert ObjOr(j, "leds") == LedsJson(info);
  }

  lemma LedsRoundTrip(info: Info)
    ensures IntOr(LedsJson(info), "count", 0) == info.ledCount
    ensures IntOr(LedsJson(info), "maxseg", 0) == info.maxSegments
  {
    var leds := LedsJson(info);
    assert DistinctKeys(leds.members);
    LookupDistinct(leds.members, 0); LookupDistinct(leds.members, 1);
  }

  /** Device info survives encoding and decoding unchanged. */
  lemma InfoRoundTrip(info: Info)
    ensures DecodeInfo(InfoJson(info)) == info
  {
    var ms := InfoJson(info).members;
    assert DistinctKeys(ms);
    LookupDistinct(ms, 0); LookupDistinct(ms, 1); LookupDistinct(ms, 2); LookupDistinct(ms, 3);
    LookupDistinct(ms, 4); LookupDistinct(ms, 5); LookupDistinct(ms, 6); LookupDistinct(ms, 7);
    LookupDistinct(ms, 8); LookupDistinct(ms, 9); LookupDistinct(ms, 10);
    DecodeInfoFrom(InfoJson(info), info);
  }

  /** The document a state encodes to is one `WLEDState.from_json` accepts. */
  lemma StateJsonDecodes(st: State)
    ensures StateDecodes(StateJson(st))
  {
    var ms := StateJson(st).members;
    assert DistinctKeys(ms);
    LookupDistinct(ms, 5); LookupDistinct(ms, 6); LookupDistinct(ms, 7); LookupDistinct(ms, 9);
    var items := SegmentsJson(st.segments).items;
    assert Get(StateJson(st), "seg") == Some(Arr(items));
    forall i | 0 <= i < |items| ensures SegmentDecodes(items[i]) {
      SegmentJsonDecodes(st.segments[i]);
    }
  }

  /** The object a segment encodes to is one `WLEDSegment.from_json` accepts. */
  lemma SegmentJsonDecodes(s: Segment)
    ensures SegmentDecodes(SegmentJson(s))
  {
    var sm := SegmentJson(s).members;
    assert DistinctKeys(sm);
    LookupDistinct(sm, 0); LookupDistinct(sm, 1);
  }

  /** The document an info record encodes to is one `WLEDInfo.from_json` accepts. */
  lemma InfoJsonDecodes(info: Info)
    ensures InfoDecodes(InfoJson(info))
  {
    var ms := InfoJson(info).members;
    assert DistinctKeys(ms);
    LookupDistinct(ms, 2);
  }

  // ---------------------------------------------------------------------
  // Accessors derived from the main segment.
  // ---------------------------------------------------------------------

  /** Python's `s[i]`: a negative index counts from the end; `None` is the `IndexError`. */
  function PyIndex<T>(s: seq<T>, i: int): (r: Option<T>)
    ensures 0 <= i < |s| ==> r == Some(s[i])
    ensures -|s| <= i < 0 ==> r == Some(s[|s| + i])
    ensures r.None? <==> i >= |s| || i < -|s|
  {
    if 0 <= i < |s| then Some(s[i])
    else if -|s| <= i < 0 then Some(s[|s| + i])
    else None
  }

  /** Which segment the derived accessors read. */
  datatype MainPick = NoMain | Main(seg: Segment) | OutOfRange

  /**
   * The guard `self.segments and len(self.segments) > self.main_segment`
   * followed by `self.segments[self.main_segment]`.
   */
  function PickMain(st: State): (p: MainPick)
    ensures p.NoMain? <==> st.segments == [] || st.mainSegment >= |st.segments|
    ensures p.OutOfRange? <==> st.segments != [] && st.mainSegment < -|st.segments|
    ensures 0 <= st.mainSegment < |st.segments| ==> p == Main(st.segments[st.mainSegment])
    ensures -|st.segments| <= st.mainSegment < 0 ==>
              p == Main(st.segments[|st.segments| + st.mainSegment])
  {
    if |st.segments| > 0 && |st.segments| > st.mainSegment then
      match PyIndex(st.segments, st.mainSegment)
      case Some(seg) => Main(seg)
      case None => OutOfRange
    else NoMain
  }

  /** `WLEDState.primary_color`; `None` when the property raises `IndexError`. */
  function PrimaryColor(st: State): (c: Option<seq<int>>)
    ensures c.None? <==> PickMain(st).OutOfRange?
    ensures 0 <= st.mainSegment < |st.segments| && |st.segments[st.mainSegment].colors| > 0 ==>
              c == Some(st.segments[st.mainSegment].colors[0])
    ensures 0 <= st.mainSegment < |st.segments| && st.segments[st.mainSegment].colors == [] ==>
              c == Some(White)
    ensures st.segments == [] || st.mainSegment >= |st.segments| ==> c == Some(White)
    ensures PickMain(st).Main? ==>
              c == Some(if |PickMain(st).seg.colors| > 0 then PickMain(st).seg.colors[0] else White)
  {
    match PickMain(st)
    case Main(seg) => if |seg.colors| > 0 then Some(seg.colors[0]) else Some(White)
    case NoMain => Some(White)
    case OutOfRange => None
  }

  /** `WLEDState.effect`; `None` when the property raises `IndexError`. */
  function Effect(st: State): (fx: Option<int>)
    ensures fx.None? <==> PickMain(st).OutOfRange?
    ensures 0 <= st.mainSegment < |st.segments| ==> fx == Some(st.segments[st.mainSegment].effect)
    ensures st.segments == [] || st.mainSegment >= |st.segments| ==> fx == Some(0)
    ensures PickMain(st).Main? ==> fx == Some(PickMain(st).seg.effect)
  {
    match PickMain(st)
    case Main(seg) => Some(seg.effect)
    case NoMain => Some(0)
    case OutOfRange => None
  }

  /** `WLEDState.palette`; `None` when the property raises `IndexError`. */
  function Palette(st: State): (pal: Option<int>)
    ensures pal.None? <==> PickMain(st).OutOfRange?
    ensures 0 <= st.mainSegment < |st.segments| ==> pal == Some(st.segments[st.mainSegment].palette)
    ensures st.segments == [] || st.mainSegment >= |st.segments| ==> pal == Some(0)
    ensures PickMain(st).Main? ==> pal == Some(PickMain(st).seg.palette)
  {
    match PickMain(st)
    case Main(seg) => Some(seg.palette)
    case NoMain => Some(0)
    case OutOfRange => None
  }
}
