/**
 * The segment node of nodes/wled_segment.py: one node per LED segment of a
 * device, showing that segment's power, brightness, effect, palette, first
 * colour and LED range, and sending segment-scoped commands through the
 * device's client.
 *
 * `update_from_state` is specified by the pure function `SegmentStatus`;
 * `query` reads the segment through Python's list indexing; every command
 * handler sends one segment request and sets its drivers to the requested
 * values without waiting for the device.
 */
module WledSegment {
  import opened Options
  import opened Text
  import opened Json
  import opened Http
  import opened WledRecords
  import opened WledApi
  import opened WledDevice

  /**
   * The node's drivers: `ST` power, `GV0` brightness (percent), `GV1`
   * effect, `GV2` palette, `GV3`..`GV5` red, green and blue, `GV6` first
   * and `GV7` last LED of the range.
   */
  datatype SegmentDrivers = SegmentDrivers(
    power: int, brightness: int, effect: int, palette: int,
    red: int, green: int, blue: int, start: int, stop: int)

  /** The drivers a segment node starts with. */
  const InitialSegmentDrivers: SegmentDrivers := SegmentDrivers(0, 0, 0, 0, 0, 0, 0, 0, 0)

  // ---------------------------------------------------------------------
  // `update_from_state`.
  // ---------------------------------------------------------------------

  /** The first colour exists and has at least the three channels red, green and blue. */
  predicate HasRgb(colors: seq<seq<int>>) {
    |colors| > 0 && |colors[0]| >= 3
  }

  /**
   * The drivers after `update_from_state(seg)`: nothing changes without a
   * segment; otherwise every driver is read from it, except that the colour
   * drivers keep their values when the first colour is missing or short.
   */
  function SegmentStatus(d: SegmentDrivers, seg: Option<Segment>): (r: SegmentDrivers)
    ensures seg.None? ==> r == d
    ensures seg.Some? ==>
              var s := seg.value;
              && r.power == (if s.on then 1 else 0) && r.brightness == Percent(s.brightness)
              && r.effect == s.effect && r.palette == s.palette
              && r.start == s.start && r.stop == s.stop
    ensures seg.Some? && HasRgb(seg.value.colors) ==>
              var c := seg.value.colors[0];
              r.red == c[0] && r.green == c[1] && r.blue == c[2]
    ensures seg.Some? && !HasRgb(seg.value.colors) ==>
              r.red == d.red && r.green == d.green && r.blue == d.blue
  {
    match seg
    case None => d
    case Some(s) =>
      var d1 := d.(power := if s.on then 1 else 0, brightness := Percent(s.brightness),
                   effect := s.effect, palette := s.palette);
      var d2 := if HasRgb(s.colors) then d1.(red := s.colors[0][0], green := s.colors[0][1], blue := s.colors[0][2]) else d1;
      d2.(start := s.start, stop := s.stop)
  }

  /** Showing the same segment twice shows what showing it once does. */
  lemma SegmentStatusIdempotent(d: SegmentDrivers, seg: Option<Segment>)
    ensures SegmentStatus(SegmentStatus(d, seg), seg) == SegmentStatus(d, seg)
  {
    var r := SegmentStatus(d, seg);
    var rr := SegmentStatus(r, seg);
    assert rr.red == r.red && rr.green == r.green && rr.blue == r.blue;
  }

  /** A segment whose first colour has three channels decides every driver: what was shown before is lost. */
  lemma SegmentStatusOverwrites(d1: SegmentDrivers, d2: SegmentDrivers, s: Segment)
    requires HasRgb(s.colors)
    ensures SegmentStatus(d1, Some(s)) == SegmentStatus(d2, Some(s))
  {
    var r1, r2 := SegmentStatus(d1, Some(s)), SegmentStatus(d2, Some(s));
    assert r1.red == r2.red && r1.green == r2.green && r1.blue == r2.blue;
  }

  // ---------------------------------------------------------------------
  // `query`.
  // ---------------------------------------------------------------------

  /** What `query` finds: no segment, the segment, or the `IndexError` of `segments[id]`. */
  datatype Queried = NoSegment | Found(seg: Segment) | IndexError

  /**
   * The guard `parent and parent.state` and `id < len(segments)`, then
   * `segments[id]`: a negative id counts from the end, and one below
   * `-len(segments)` (any negative id when there are no segments) raises.
   */
  function SegmentPick(state: Option<State>, id: int): (q: Queried)
    ensures state.None? ==> q == NoSegment
    ensures state.Some? && 0 <= id < |state.value.segments| ==> q == Found(state.value.segments[id])
    ensures state.Some? && -|state.value.segments| <= id < 0 ==>
              q == Found(state.value.segments[|state.value.segments| + id])
    ensures q == IndexError <==> state.Some? && id < -|state.value.segments|
    ensures q == NoSegment <==> state.None? || id >= |state.value.segments|
  {
    if state.None? || id >= |state.value.segments| then NoSegment
    else match PyIndex(state.value.segments, id)
      case Some(s) => Found(s)
      case None => IndexError
  }

  /** The segment `update_from_state` is given, if any. */
  function Shown(q: Queried): Option<Segment> {
    if q.Found? then Some(q.seg) else None
  }

  /** On a state decoded from a document, `query` shows element `id` of its `seg` list, decoded with id `id`. */
  lemma QueryDecoded(j: Json, id: int)
    requires 0 <= id < |ItemsOr(j, "seg")|
    ensures SegmentPick(Some(DecodeState(j)), id) == Found(DecodeSegment(ItemsOr(j, "seg")[id], id))
  {
    var items := ItemsOr(j, "seg");
    assert DecodeState(j).segments == DecodeSegments(items);
  }

  // ---------------------------------------------------------------------
  // The segment call.
  // ---------------------------------------------------------------------

  /** The public methods of the device client (`WLEDDevice` in lib/wled_api.py). */
  const ClientMethods: set<string> := {
    "get_all", "get_state", "get_info", "set_state", "set_power", "set_brightness",
    "set_effect", "set_palette", "set_color", "set_preset", "get_presets", "set_segment_state"}

  /** What awaiting a segment call does: nothing without a parent, the lookup's error, or one request. */
  datatype Await = Skipped | Raised(error: string) | Posted(request: Request)

  /**
   * `if parent: parent.<attribute>(id, **kwargs)`, for the two spellings a
   * segment handler can use: a name the client does not define raises
   * `AttributeError` before any request; `set_segment_state` posts the
   * segment object `{"id": id, **kwargs}`.
   */
  function SegmentCall(parent: Device?, attribute: string, id: int, kwargs: Args): (r: Await)
    requires attribute == "set_segment" || attribute == "set_segment_state"
  {
    if parent == null then Skipped
    else if attribute !in ClientMethods then Raised("AttributeError")
    else Posted(HttpPost(parent.Url("/json/state"), Obj(SegmentStateArgs(id, kwargs))))
  }

  /** As written, the handlers await `set_segment`: with a parent it raises, and no request is ever sent. */
  lemma SegmentCallAsWritten(parent: Device?, id: int, kwargs: Args)
    ensures parent != null ==> SegmentCall(parent, "set_segment", id, kwargs) == Raised("AttributeError")
    ensures !SegmentCall(parent, "set_segment", id, kwargs).Posted?
  {
    assert "set_segment" !in ClientMethods;
  }

  /** Through `set_segment_state`, a parent receives one post whose segment object carries the id and the arguments. */
  lemma SegmentCallCorrected(parent: Device?, id: int, kwargs: Args)
    ensures parent != null ==> SegmentCall(parent, "set_segment_state", id, kwargs).Posted?
    ensures parent != null ==>
              var body := SegmentCall(parent, "set_segment_state", id, kwargs).request.body;
              && SegmentOf(body.members).Obj?
              && (!Has(Obj(kwargs), "id") ==> Get(SegmentOf(body.members), "id") == Some(Int(id)))
              && forall k :: k != "id" ==> Get(SegmentOf(body.members), k) == Get(Obj(kwargs), k)
    ensures parent == null ==> SegmentCall(parent, "set_segment_state", id, kwargs) == Skipped
  {
  }

  // ---------------------------------------------------------------------
  // The arguments of each command.
  // ---------------------------------------------------------------------

  /** `cmd_on`: `on=True`, with `bri` when a percentage is given. */
  function OnKwargs(percent: Option<int>): Args {
    if percent.Some? then [Member("on", Bool(true)), Member("bri", Int(PercentToByte(percent.value)))]
    else [Member("on", Bool(true))]
  }

  /** `cmd_off`: `on=False`. */
  function OffKwargs(): Args {
    [Member("on", Bool(false))]
  }

  /** `cmd_set_brightness`: `bri` from a percentage. */
  function BrightnessKwargs(percent: int): Args {
    [Member("bri", Int(PercentToByte(percent)))]
  }

  /** `cmd_set_effect`: `fx`. */
  function EffectKwargs(fx: int): Args {
    [Member("fx", Int(fx))]
  }

  /** `cmd_set_palette`: `pal`. */
  function PaletteKwargs(pal: int): Args {
    [Member("pal", Int(pal))]
  }

  /** `cmd_set_color`: `col=[[r, g, b]]`, the channels as given. */
  function ColorKwargs(r: int, g: int, b: int): Args {
    [Member("col", Arr([Arr([Int(r), Int(g), Int(b)])]))]
  }

  /** The segment object a command posts, decoded as the device would decode it. */
  function Readback(id: int, kwargs: Args): Segment {
    DecodeSegment(SegmentOf(SegmentStateArgs(id, kwargs)), id)
  }

  /** A key of the arguments other than `id` reads back from the posted segment object. */
  lemma ReadbackGet(id: int, kwargs: Args, k: string)
    requires k != "id"
    ensures Get(SegmentOf(SegmentStateArgs(id, kwargs)), k) == Get(Obj(kwargs), k)
  {
  }

  /** The power a power command sets is the power its request carries; so is the brightness, up to truncation. */
  lemma OnReadback(id: int, percent: Option<int>)
    ensures Readback(id, OnKwargs(percent)).on
    ensures percent.Some? && 0 <= percent.value <= 100 ==>
              percent.value - 1 <= Percent(Readback(id, OnKwargs(percent)).brightness) <= percent.value
    ensures !Readback(id, OffKwargs()).on
  {
    var a := OnKwargs(percent);
    ReadbackGet(id, a, "on");
    LookupNone(a, "on");
    if percent.Some? && 0 <= percent.value <= 100 {
      ReadbackGet(id, a, "bri");
      PercentRoundTrip(percent.value);
    }
    ReadbackGet(id, OffKwargs(), "on");
  }

  /** The brightness a brightness command shows reads back from its request, up to truncation. */
  lemma BrightnessReadback(id: int, percent: int)
    requires 0 <= percent <= 100
    ensures percent - 1 <= Percent(Readback(id, BrightnessKwargs(percent)).brightness) <= percent
  {
    ReadbackGet(id, BrightnessKwargs(percent), "bri");
    PercentRoundTrip(percent);
  }

  /** The effect and the palette the commands show read back from their requests exactly. */
  lemma EffectPaletteReadback(id: int, fx: int, pal: int)
    ensures Readback(id, EffectKwargs(fx)).effect == fx
    ensures Readback(id, PaletteKwargs(pal)).palette == pal
  {
    ReadbackGet(id, EffectKwargs(fx), "fx");
    ReadbackGet(id, PaletteKwargs(pal), "pal");
  }

  /** The colour a colour command shows reads back from its request exactly, and `update_from_state` shows it. */
  lemma ColorReadback(d: SegmentDrivers, id: int, r: int, g: int, b: int)
    ensures Readback(id, ColorKwargs(r, g, b)).colors == [[r, g, b]]
    ensures var shown := SegmentStatus(d, Some(Readback(id, ColorKwargs(r, g, b))));
            shown.red == r && shown.green == g && shown.blue == b
  {
    var a := ColorKwargs(r, g, b);
    ReadbackGet(id, a, "col");
    var seg := SegmentOf(SegmentStateArgs(id, a));
    var channels := [Int(r), Int(g), Int(b)];
    assert Get(seg, "col") == Some(Arr([Arr(channels)]));
    assert AllIntLike(channels);
    assert ColorOf(Arr(channels)) == [r, g, b];
    assert ColorsOf(seg) == [[r, g, b]];
  }

  // ---------------------------------------------------------------------
  // The node.
  // ---------------------------------------------------------------------

  class SegmentNode {
    const address: string
    const name: string
    /** The segment's index in the device's `seg` list. */
    const segmentId: int
    /** The device's client; `None` is possible, and then commands send nothing. */
    const parent: Device?
    var drivers: SegmentDrivers

    /** `__init__`: a node with the declared initial drivers. */
    constructor (address: string, name: string, segmentId: int, parent: Device?)
      ensures this.address == address && this.name == name
      ensures this.segmentId == segmentId && this.parent == parent
      ensures drivers == InitialSegmentDrivers
    {
      this.address := address;
      this.name := name;
      this.segmentId := segmentId;
      this.parent := parent;
      drivers := InitialSegmentDrivers;
    }

    /** What a command may change besides the node: the client and its network. */
    ghost function Client(): set<object> {
      if parent == null then {} else {parent, parent.net}
    }

    /** The state the parent's client has cached, if there is a parent. */
    function ParentState(): Option<State>
      reads parent
    {
      if parent == null then None else parent.cache.state
    }

    /** `update_from_state(segment_state)`. */
    method UpdateFromState(seg: Option<Segment>)
      modifies this
      ensures drivers == SegmentStatus(old(drivers), seg)
    {
      if seg.None? {
        return;
      }
      var s := seg.value;
      drivers := drivers.(power := if s.on then 1 else 0);
      drivers := drivers.(brightness := Percent(s.brightness));
      drivers := drivers.(effect := s.effect);
      drivers := drivers.(palette := s.palette);
      if |s.colors| > 0 {
        var color := s.colors[0];
        if |color| >= 3 {
          drivers := drivers.(red := color[0], green := color[1], blue := color[2]);
        }
      }
      drivers := drivers.(start := s.start, stop := s.stop);
    }

    /** `query`: the segment from the parent's cached state; `ok` is false when the index raises. */
    method Query() returns (ok: bool)
      modifies this
      ensures ok <==> SegmentPick(ParentState(), segmentId) != IndexError
      ensures drivers == SegmentStatus(old(drivers), Shown(SegmentPick(ParentState(), segmentId)))
    {
      ok := true;
      if parent != null && parent.cache.state.Some? {
        var segments := parent.cache.state.value.segments;
        if segmentId < |segments| {
          var seg := PyIndex(segments, segmentId);
          if seg.None? {
            return false;
          }
          UpdateFromState(seg);
        }
      }
    }

    /** One segment call through the client, as `set_segment_state` makes it. */
    twostate predicate Issued(kwargs: Args)
      reads Client()
    {
      parent != null ==>
        && parent.net.sent == old(parent.net.sent) + [SegmentCall(parent, "set_segment_state", segmentId, kwargs).request]
        && parent.Snapshot() == AfterSetState(old(parent.Snapshot()), old(parent.net.Next())).0
    }

    /** The segment call about to be made raises: the parent's client receives an
        answer that does not decode, and the exception leaves the handler. */
    ghost predicate CallRaises()
      reads Client()
    {
      parent != null && AfterSetState(parent.Snapshot(), parent.net.Next()).1.Threw?
    }

    /** The segment call of a command, made through `set_segment_state`; nothing is
        sent without a parent. `returned` is false when the call raised. */
    method Send(kwargs: Args) returns (returned: bool)
      modifies Client()
      ensures Issued(kwargs)
      ensures returned <==> !old(CallRaises())
    {
      returned := true;
      if parent != null {
        var r := parent.SetSegmentState(segmentId, kwargs);
        returned := !r.Threw?;
      }
    }

    /** `cmd_on`: power on, with the brightness when a percentage is given; ST shows on. */
    method On(command: map<string, string>) returns (ok: bool)
      modifies this, Client()
      ensures ok <==> "value" !in command || ParseInt(command["value"]).Some?
      ensures !ok ==> unchanged(this) && unchanged(Client())
      ensures ok ==> Issued(OnKwargs(if "value" in command then ParseInt(command["value"]) else None))
      ensures ok ==> drivers == (if old(CallRaises()) then old(drivers) else old(drivers).(power := 1))
    {
      var brightness: Option<int> := None;
      if "value" in command {
        brightness := ParseInt(command["value"]);
        if brightness.None? {
          return false;
        }
      }
      var returned := Send(OnKwargs(brightness));
      if returned {
        drivers := drivers.(power := 1);
      }
      ok := true;
    }

    /** `cmd_off`: power off; ST shows off. */
    method Off()
      modifies this, Client()
      ensures Issued(OffKwargs())
      ensures drivers == (if old(CallRaises()) then old(drivers) else old(drivers).(power := 0))
    {
      var returned := Send(OffKwargs());
      if returned {
        drivers := drivers.(power := 0);
      }
    }

    /** `cmd_set_brightness`: a percentage, 100 by default; GV0 shows it as given. */
    method SetBrightness(command: map<string, string>) returns (ok: bool)
      modifies this, Client()
      ensures ok <==> ParamOr(command, "value", 100).Some?
      ensures !ok ==> unchanged(this) && unchanged(Client())
      ensures ok ==> Issued(BrightnessKwargs(ParamOr(command, "value", 100).value))
      ensures ok ==> drivers == (if old(CallRaises()) then old(drivers) else old(drivers).(brightness := ParamOr(command, "value", 100).value))
    {
      var p := ParamOr(command, "value", 100);
      if p.None? {
        return false;
      }
      var returned := Send(BrightnessKwargs(p.value));
      if returned {
        drivers := drivers.(brightness := p.value);
      }
      ok := true;
    }

    /** `cmd_set_effect`: effect 0 by default; GV1 shows it. */
    method SetEffect(command: map<string, string>) returns (ok: bool)
      modifies this, Client()
      ensures ok <==> ParamOr(command, "value", 0).Some?
      ensures !ok ==> unchanged(this) && unchanged(Client())
      ensures ok ==> Issued(EffectKwargs(ParamOr(command, "value", 0).value))
      ensures ok ==> drivers == (if old(CallRaises()) then old(drivers) else old(drivers).(effect := ParamOr(command, "value", 0).value))
    {
      var fx := ParamOr(command, "value", 0);
      if fx.None? {
        return false;
      }
      var returned := Send(EffectKwargs(fx.value));
      if returned {
        drivers := drivers.(effect := fx.value);
      }
      ok := true;
    }

    /** `cmd_set_palette`: palette 0 by default; GV2 shows it. */
    method SetPalette(command: map<string, string>) returns (ok: bool)
      modifies this, Client()
      ensures ok <==> ParamOr(command, "value", 0).Some?
      ensures !ok ==> unchanged(this) && unchanged(Client())
      ensures ok ==> Issued(PaletteKwargs(ParamOr(command, "value", 0).value))
      ensures ok ==> drivers == (if old(CallRaises()) then old(drivers) else old(drivers).(palette := ParamOr(command, "value", 0).value))
    {
      var pal := ParamOr(command, "value", 0);
      if pal.None? {
        return false;
      }
      var returned := Send(PaletteKwargs(pal.value));
      if returned {
        drivers := drivers.(palette := pal.value);
      }
      ok := true;
    }

    /** `cmd_set_color`: each channel from `X.uom56`, else `X`, else 255; GV3..GV5 show them as given. */
    method SetColor(command: map<string, string>) returns (ok: bool)
      modifies this, Client()
      ensures ok <==> ColorParam(command, "R").Some? && ColorParam(command, "G").Some? && ColorParam(command, "B").Some?
      ensures !ok ==> unchanged(this) && unchanged(Client())
      ensures ok ==>
                var r, g, b := ColorParam(command, "R").value, ColorParam(command, "G").value, ColorParam(command, "B").value;
                && Issued(ColorKwargs(r, g, b))
                && drivers == (if old(CallRaises()) then old(drivers) else old(drivers).(red := r, green := g, blue := b))
    {
      var r := ColorParam(command, "R");
      if r.None? {
        return false;
      }
      var g := ColorParam(command, "G");
      if g.None? {
        return false;
      }
      var b := ColorParam(command, "B");
      if b.None? {
        return false;
      }
      var returned := Send(ColorKwargs(r.value, g.value, b.value));
      if returned {
        drivers := drivers.(red := r.value, green := g.value, blue := b.value);
      }
      ok := true;
    }
  }
}
