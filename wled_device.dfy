/**
 * The device node of nodes/wled_device.py: one node per LED controller,
 * holding its status drivers (power, brightness, effect, ..., sync) and the
 * presets last fetched.
 *
 * `update_status` is specified by the pure function `StatusDrivers` of the
 * old drivers and the client's cache after the refresh; every command
 * handler is proved to send exactly its `set_state` bodies followed by the
 * refresh, and to leave the drivers as `StatusDrivers` says.
 */
module WledDevice {
  import opened Options
  import opened Text
  import opened Json
  import opened Http
  import opened WledRecords
  import opened WledApi

  /**
   * The node's status drivers, one field per driver: `ST` power, `GV0`
   * brightness (percent), `GV1` effect, `GV2` palette, `GV3` preset, `GV4`..`GV6`
   * red, green and blue, `GV7` online, `GV8` speed and `GV9` intensity
   * (percent), `GV10` transition, `GV11` live override, `GV12` nightlight and
   * `GV13` sync.
   */
  datatype Drivers = Drivers(
    power: int, brightness: int, effect: int, palette: int, preset: int,
    red: int, green: int, blue: int, online: int,
    speed: int, intensity: int, transition: int, live: int, nightlight: int, sync: int)

  /** The drivers a node starts with. */
  const InitialDrivers: Drivers := Drivers(0, 0, 0, 0, 0, 0, 0, 0, 0, 50, 50, 7, 0, 0, 0)

  // ---------------------------------------------------------------------
  // Unit conversions.
  // ---------------------------------------------------------------------

  /** Python's `int(x)` of a quotient: division truncating toward zero. */
  function TruncDiv(a: int, b: int): int
    requires b > 0
  {
    if a >= 0 then a / b else -((-a) / b)
  }

  /** `int((v / 255) * 100)`: a 0..255 level as a percentage. */
  function Percent(v: int): (p: int)
    ensures 0 <= v <= 255 ==> 0 <= p <= 100
    ensures v == 0 ==> p == 0
    ensures v == 255 ==> p == 100
  {
    TruncDiv(v * 100, 255)
  }

  /** `int((p / 100) * 255)`: a percentage as a 0..255 level. */
  function PercentToByte(p: int): (v: int)
    ensures 0 <= p <= 100 ==> 0 <= v <= 255
    ensures p == 0 ==> v == 0
    ensures p == 100 ==> v == 255
  {
    TruncDiv(p * 255, 100)
  }

  /** A percentage sent to the device reads back as itself, or one less after truncation. */
  lemma PercentRoundTrip(p: int)
    requires 0 <= p <= 100
    ensures p - 1 <= Percent(PercentToByte(p)) <= p
  {
    var v := PercentToByte(p);
    assert v == (p * 255) / 100;
    assert 100 * v <= 255 * p < 100 * v + 100;
    var q := Percent(v);
    assert q == (v * 100) / 255;
    assert 255 * q <= 100 * v < 255 * q + 255;
  }

  /** `min(255, current + 25)`. */
  function Brighten(b: int): (r: int)
    ensures r <= 255
    ensures b <= 255 ==> r >= b
    ensures b <= 230 ==> r == b + 25
    ensures b >= 230 ==> r == 255
  {
    if b + 25 < 255 then b + 25 else 255
  }

  /** `max(0, current - 25)`. */
  function Dim(b: int): (r: int)
    ensures r >= 0
    ensures b >= 0 ==> r <= b
    ensures b >= 25 ==> r == b - 25
    ensures b <= 25 ==> r == 0
  {
    if b - 25 > 0 then b - 25 else 0
  }

  /** Away from the ends of the range, dimming undoes brightening and back. */
  lemma BrightenDim(b: int)
    ensures 0 <= b <= 230 ==> Dim(Brighten(b)) == b
    ensures 25 <= b <= 255 ==> Brighten(Dim(b)) == b
  {
  }

  /** The combined sync driver: 0 off, 1 send, 2 receive, 3 both. */
  function SyncCode(send: bool, recv: bool): (r: int)
    ensures 0 <= r <= 3
    ensures r % 2 == 1 <==> send
    ensures r / 2 == 1 <==> recv
  {
    if send && recv then 3 else if send then 1 else if recv then 2 else 0
  }

  /** The preset driver: the active preset, 0 when none (-1). */
  function PresetDriver(ps: int): (r: int)
    ensures r >= 0
    ensures ps >= 0 ==> r == ps
    ensures ps < 0 ==> r == 0
  {
    if ps >= 0 then ps else 0
  }

  /** The nightlight driver: the duration while the nightlight runs, else 0. */
  function NightlightDriver(on: bool, duration: int): (r: int)
    ensures on ==> r == duration
    ensures !on ==> r == 0
  {
    if on then duration else 0
  }

  /** The segment speed and intensity are read from: the main one when its index
      is below the count, else the first; `None` with no segments. */
  function SpeedSegment(st: State): (r: Option<Segment>)
    ensures r.None? <==> st.segments == [] || PickMain(st).OutOfRange?
    ensures PickMain(st).Main? ==> r == Some(PickMain(st).seg)
    ensures st.segments != [] && st.mainSegment >= |st.segments| ==> r == Some(st.segments[0])
  {
    if |st.segments| == 0 then None
    else if st.mainSegment < |st.segments| then PyIndex(st.segments, st.mainSegment)
    else Some(st.segments[0])
  }

  // ---------------------------------------------------------------------
  // `update_status`.
  // ---------------------------------------------------------------------

  /**
   * The drivers after a refresh, from the drivers before it and the client's
   * cache after it, in the order `update_status` writes them. A main segment
   * index below `-len(segments)` makes the `effect` property raise once power
   * and brightness are written; the handler then marks the node offline.
   */
  function StatusDrivers(d: Drivers, c: Cache): Drivers {
    var d1 := d.(online := if c.online then 1 else 0);
    if !(c.online && c.state.Some?) then d1
    else
      var st := c.state.value;
      var d2 := d1.(power := if st.on then 1 else 0, brightness := Percent(st.brightness));
      if PickMain(st).OutOfRange? then d2.(online := 0)
      else DetailDrivers(d2, st, Effect(st).value, Palette(st).value, PrimaryColor(st).value, SpeedSegment(st))
  }

  /** The drivers written after power and brightness, given the main segment's
      effect, palette and colour and the segment speed is read from. */
  function DetailDrivers(d: Drivers, st: State, fx: int, pal: int, col: seq<int>, seg: Option<Segment>): Drivers {
    var d3 := d.(effect := fx, palette := pal, preset := PresetDriver(st.preset));
    var d4 := if |col| >= 3 then d3.(red := col[0], green := col[1], blue := col[2]) else d3;
    var d5 := match seg
      case Some(s) => d4.(speed := Percent(s.speed), intensity := Percent(s.intensity))
      case None => d4;
    d5.(transition := st.transition, live := if st.live then 1 else 0,
        nightlight := NightlightDriver(st.nightlightOn, st.nightlightDuration),
        sync := SyncCode(st.syncSend, st.syncReceive))
  }

  /** The online flag after a refresh: set exactly when the client is online and
      its state, if any, can be read. */
  lemma StatusOnlineFlag(d: Drivers, c: Cache)
    ensures StatusDrivers(d, c).online ==
              (if c.online && !(c.state.Some? && PickMain(c.state.value).OutOfRange?) then 1 else 0)
  {
  }

  /** An offline client, or one without a state, changes nothing but the online flag. */
  lemma StatusWithoutState(d: Drivers, c: Cache)
    requires !(c.online && c.state.Some?)
    ensures StatusDrivers(d, c) == d.(online := if c.online then 1 else 0)
  {
  }

  /** When `effect` raises, power and brightness are written and the node is marked offline. */
  lemma StatusOutOfRange(d: Drivers, c: Cache)
    requires c.online && c.state.Some? && PickMain(c.state.value).OutOfRange?
    ensures var st := c.state.value;
            StatusDrivers(d, c) == d.(power := if st.on then 1 else 0, brightness := Percent(st.brightness), online := 0)
  {
  }

  /** On a readable state the node is online and every scalar driver reports its field. */
  lemma StatusFields(d: Drivers, c: Cache)
    requires c.online && c.state.Some? && !PickMain(c.state.value).OutOfRange?
    ensures var st := c.state.value; var r := StatusDrivers(d, c);
              && r.online == 1
              && r.power == (if st.on then 1 else 0)
              && r.brightness == Percent(st.brightness)
              && r.effect == Effect(st).value
              && r.palette == Palette(st).value
              && r.preset == PresetDriver(st.preset)
              && r.transition == st.transition
              && r.live == (if st.live then 1 else 0)
              && r.nightlight == NightlightDriver(st.nightlightOn, st.nightlightDuration)
              && r.sync == SyncCode(st.syncSend, st.syncReceive)
  {
  }

  /** The colour drivers report the primary colour when it has three channels, else keep their values. */
  lemma StatusColor(d: Drivers, c: Cache)
    requires c.online && c.state.Some? && !PickMain(c.state.value).OutOfRange?
    ensures var r := StatusDrivers(d, c); var col := PrimaryColor(c.state.value).value;
              && (|col| >= 3 ==> r.red == col[0] && r.green == col[1] && r.blue == col[2])
              && (|col| < 3 ==> r.red == d.red && r.green == d.green && r.blue == d.blue)
  {
  }

  /** Speed and intensity report the speed segment's values, or keep theirs when there is no segment. */
  lemma StatusSpeed(d: Drivers, c: Cache)
    requires c.online && c.state.Some? && !PickMain(c.state.value).OutOfRange?
    ensures var r := StatusDrivers(d, c); var seg := SpeedSegment(c.state.value);
              && (seg.Some? ==> r.speed == Percent(seg.value.speed) && r.intensity == Percent(seg.value.intensity))
              && (seg.None? ==> r.speed == d.speed && r.intensity == d.intensity)
  {
  }

  /** Refreshing twice from the same cache gives what refreshing once gives. */
  lemma StatusDriversIdempotent(d: Drivers, c: Cache)
    ensures StatusDrivers(StatusDrivers(d, c), c) == StatusDrivers(d, c)
  {
    var r := StatusDrivers(d, c);
    if c.online && c.state.Some? && !PickMain(c.state.value).OutOfRange? {
      var st := c.state.value;
      var r2 := r.(online := 1, power := if st.on then 1 else 0, brightness := Percent(st.brightness));
      assert r2 == r;
      DetailDriversIdempotent(r, st, Effect(st).value, Palette(st).value, PrimaryColor(st).value, SpeedSegment(st));
    }
  }

  /** The detail drivers depend only on what they are given, not on what they showed. */
  lemma DetailDriversIdempotent(d: Drivers, st: State, fx: int, pal: int, col: seq<int>, seg: Option<Segment>)
    ensures var r := DetailDrivers(d, st, fx, pal, col, seg);
            DetailDrivers(r, st, fx, pal, col, seg) == r
  {
  }

  /** The client's cache after the refresh `update_status` performs, and whether
      the refresh returned (rather than raised). */
  function Refresh(c: Cache, full: bool, o: Outcome): (Cache, bool) {
    if full then
      var a := AfterGetAll(c, o);
      (a.0, !a.1.Threw?)
    else
      var a := AfterGetState(c, o);
      (a.0, !a.1.Threw?)
  }

  /** A run of `set_state` calls: the cache afterwards, how many were sent, and
      whether the last one sent raised (which ends the handler there). */
  datatype Run = Run(cache: Cache, sent: nat, threw: bool)

  /** `posts` calls of `set_state`, the k-th request ever sent receiving
      `Answer(script, k)`, stopping at the first that raises. */
  function RunPosts(c: Cache, posts: nat, script: seq<Outcome>, k: nat): (r: Run)
    ensures r.sent <= posts
    ensures !r.threw ==> r.sent == posts
    ensures r.threw ==> r.sent > 0
    decreases posts
  {
    if posts == 0 then Run(c, 0, false)
    else
      var a := AfterSetState(c, Answer(script, k));
      if a.1.Threw? then Run(a.0, 1, true)
      else
        var rest := RunPosts(a.0, posts - 1, script, k + 1);
        Run(rest.cache, rest.sent + 1, rest.threw)
  }

  /** Two `set_state` calls: the second is made only when the first returned. */
  lemma RunTwoPosts(c: Cache, script: seq<Outcome>, k: nat)
    ensures var a := AfterSetState(c, Answer(script, k));
            var b := AfterSetState(a.0, Answer(script, k + 1));
            RunPosts(c, 2, script, k)
            == if a.1.Threw? then Run(a.0, 1, true) else Run(b.0, 2, b.1.Threw?)
  {
    var a := AfterSetState(c, Answer(script, k));
    if !a.1.Threw? {
      assert RunPosts(a.0, 1, script, k + 1).sent == 1;
    }
  }

  /** The POST requests of a run of `set_state` calls. */
  function Posts(url: string, posts: seq<Args>): (rs: seq<Request>)
    ensures |rs| == |posts|
    ensures forall i :: 0 <= i < |posts| ==> rs[i] == HttpPost(url, Obj(posts[i]))
  {
    if posts == [] then [] else [HttpPost(url, Obj(posts[0]))] + Posts(url, posts[1..])
  }

  // ---------------------------------------------------------------------
  // Command arguments.
  // ---------------------------------------------------------------------

  /** `int(command.get(key, default))`; `None` when `int` raises `ValueError`. */
  function ParamOr(command: map<string, string>, key: string, default: int): (r: Option<int>)
    ensures key !in command ==> r == Some(default)
    ensures key in command ==> r == ParseInt(command[key])
  {
    if key in command then ParseInt(command[key]) else Some(default)
  }

  /** `int(command.get(key + '.uom56', command.get(key, 255)))`. */
  function ColorParam(command: map<string, string>, key: string): (r: Option<int>)
    ensures key + ".uom56" in command ==> r == ParseInt(command[key + ".uom56"])
    ensures key + ".uom56" !in command ==> r == ParamOr(command, key, 255)
  {
    if key + ".uom56" in command then ParseInt(command[key + ".uom56"]) else ParamOr(command, key, 255)
  }

  /** `set_state(on=on, transition=0)`. */
  function FastArgs(on: bool): (a: Args)
    ensures Get(Obj(a), "on") == Some(Bool(on)) && Get(Obj(a), "transition") == Some(Int(0))
    ensures |a| == 2
  {
    var a := [Member("on", Bool(on)), Member("transition", Int(0))];
    assert DistinctKeys(a);
    LookupDistinct(a, 0);
    LookupDistinct(a, 1);
    a
  }

  /** `set_state(transition=t)`. */
  function TransitionArgs(t: int): (a: Args)
    ensures Get(Obj(a), "transition") == Some(Int(t)) && |a| == 1
  {
    [Member("transition", Int(t))]
  }

  /** `set_state(lor=1 if live else 0)`. */
  function LiveArgs(live: bool): (a: Args)
    ensures Get(Obj(a), "lor") == Some(Int(if live then 1 else 0)) && |a| == 1
  {
    [Member("lor", Int(if live then 1 else 0))]
  }

  /** `set_state(nl={"on": False})`. */
  function NightlightOffArgs(): (a: Args)
    ensures Get(Obj(a), "nl").Some? && Get(ObjOr(Obj(a), "nl"), "on") == Some(Bool(false))
    ensures !Has(Obj(a), "on") && |a| == 1
    ensures |ObjOr(Obj(a), "nl").members| == 1
  {
    [Member("nl", Obj([Member("on", Bool(false))]))]
  }

  /** A zero duration turns the nightlight off; any other turns the light on and
      starts a fade to zero over that many minutes. */
  function NightlightArgs(duration: int): (a: Args)
    ensures duration == 0 ==> a == NightlightOffArgs()
    ensures duration != 0 ==>
              var nl := ObjOr(Obj(a), "nl");
              && Get(Obj(a), "on") == Some(Bool(true))
              && Get(nl, "on") == Some(Bool(true))
              && Get(nl, "dur") == Some(Int(duration))
              && Get(nl, "mode") == Some(Int(1))
              && Get(nl, "tbri") == Some(Int(0))
              && |a| == 2 && |nl.members| == 4
  {
    if duration == 0 then NightlightOffArgs()
    else
      var nl := Obj([Member("on", Bool(true)), Member("dur", Int(duration)),
                     Member("mode", Int(1)), Member("tbri", Int(0))]);
      var a := [Member("on", Bool(true)), Member("nl", nl)];
      assert DistinctKeys(a) && DistinctKeys(nl.members);
      LookupDistinct(a, 0);
      LookupDistinct(a, 1);
      LookupDistinct(nl.members, 0);
      LookupDistinct(nl.members, 1);
      LookupDistinct(nl.members, 2);
      LookupDistinct(nl.members, 3);
      a
  }

  /** `set_state(udpn={"send": send})`. */
  function SyncSendArgs(send: bool): (a: Args)
    ensures Get(Obj(a), "udpn").Some? && Get(ObjOr(Obj(a), "udpn"), "send") == Some(Bool(send))
    ensures !Has(ObjOr(Obj(a), "udpn"), "recv") && |a| == 1
  {
    var m := [Member("send", Bool(send))];
    LookupNone(m, "recv");
    [Member("udpn", Obj(m))]
  }

  /** `set_state(udpn={"recv": recv})`. */
  function SyncReceiveArgs(recv: bool): (a: Args)
    ensures Get(Obj(a), "udpn").Some? && Get(ObjOr(Obj(a), "udpn"), "recv") == Some(Bool(recv))
    ensures !Has(ObjOr(Obj(a), "udpn"), "send") && |a| == 1
  {
    var m := [Member("recv", Bool(recv))];
    LookupNone(m, "send");
    [Member("udpn", Obj(m))]
  }

  /** `set_state(psave=id)`. */
  function SavePresetArgs(id: int): (a: Args)
    ensures Get(Obj(a), "psave") == Some(Int(id)) && |a| == 1
  {
    [Member("psave", Int(id))]
  }

  /** `set_state(pl=id)`; -1 stops the playlist. */
  function PlaylistArgs(id: int): (a: Args)
    ensures Get(Obj(a), "pl") == Some(Int(id)) && |a| == 1
  {
    [Member("pl", Int(id))]
  }

  // ---------------------------------------------------------------------
  // The node.
  // ---------------------------------------------------------------------

  /** What a node holds between refreshes. */
  datatype Held = Held(cache: Cache, drivers: Drivers, presets: map<int, Json>)

  /** What `update_status(full)` answered by `o` makes of holding `h`. */
  function PollStep(h: Held, full: bool, o: Outcome): Held {
    var (c, returned) := Refresh(h.cache, full, o);
    Held(c, if returned then StatusDrivers(h.drivers, c) else h.drivers.(online := 0), h.presets)
  }

  /** A refresh answered by a document that does not decode raises inside the
      handler: the client has marked the device online, but the node shows it
      offline and keeps every other driver. */
  lemma PollStepRaises(h: Held, full: bool, o: Outcome)
    requires o.Reply? && o.status == 200 && Truthy(o.body)
    requires full ==> o.body.Obj? && Has(o.body, "state") && !StateDecodes(Get(o.body, "state").value)
    requires !full ==> !StateDecodes(o.body)
    ensures PollStep(h, full, o) == Held(h.cache.(online := true, lastError := None), h.drivers.(online := 0), h.presets)
  {
    if full {
      GetAllStateRaises(h.cache.(online := true, lastError := None), o.body);
    }
  }

  /** The refresh `update_status` makes returns: the answer is not a truthy 200
      document, or its sections (`get_all`) or itself (`get_state`) decode. */
  predicate RefreshDecodes(full: bool, o: Outcome) {
    !(o.Reply? && o.status == 200 && Truthy(o.body))
    || (full && o.body.Obj? && SectionsDecode(o.body))
    || (full && !o.body.Obj? && NoSectionNames(o.body))
    || (!full && StateDecodes(o.body))
  }

  /** A refresh returns exactly when its answer decodes; then the drivers show the
      refreshed cache, and otherwise only the online driver changes, to 0. */
  lemma PollStepOutcome(h: Held, full: bool, o: Outcome)
    ensures Refresh(h.cache, full, o).1 <==> RefreshDecodes(full, o)
    ensures RefreshDecodes(full, o) ==>
              PollStep(h, full, o).drivers == StatusDrivers(h.drivers, PollStep(h, full, o).cache)
    ensures !RefreshDecodes(full, o) ==> PollStep(h, full, o).drivers == h.drivers.(online := 0)
    ensures PollStep(h, full, o).presets == h.presets
  {
    var e := AfterRequest(h.cache, o);
    if full && Succeeded(e) {
      if o.body.Obj? {
        ApplyAllObject(e.cache, o.body);
      } else {
        ApplyAllNonObject(e.cache, o.body);
      }
    }
  }

  class DeviceNode {
    const address: string
    const name: string
    const client: Device
    var drivers: Drivers
    var availablePresets: map<int, Json>

    /**
     * A node gets its own client, refreshes everything once and then fetches
     * the presets; they are kept only when there are some.
     */
    constructor (address: string, name: string, ip: string, port: int, net: Transport)
      modifies net
      ensures this.address == address && this.name == name
      ensures fresh(client) && client.host == ip && client.port == port && client.net == net
      ensures client.baseUrl == BaseUrl(ip, port)
      ensures net.sent == old(net.sent) + [HttpGet(BaseUrl(ip, port) + "/json"), HttpGet(BaseUrl(ip, port) + "/presets.json")]
      ensures Started(net.script, |old(net.sent)|)
    {
      this.address := address;
      this.name := name;
      client := new Device(ip, port, net);
      drivers := InitialDrivers;
      availablePresets := map[];
      new;
      UpdateStatus(true);
      FetchPresets();
    }

    /** The node right after construction: the full refresh answered by
        `Answer(script, start)`, then the preset fetch answered by `Answer(script, start + 1)`. */
    predicate Started(script: seq<Outcome>, start: nat)
      reads this, client
    {
      var h := PollStep(Held(EmptyCache, InitialDrivers, map[]), true, Answer(script, start));
      var o := Answer(script, start + 1);
      && client.Snapshot() == AfterGetPresets(h.cache, o)
      && drivers == h.drivers
      && availablePresets == PresetsFound(o)
    }

    function Holding(): Held
      reads this, client
    {
      Held(client.Snapshot(), drivers, availablePresets)
    }

    /** `_fetch_presets`: the presets are replaced only by a non-empty answer. */
    method FetchPresets()
      modifies this, client, client.net
      ensures client.net.sent == old(client.net.sent) + [HttpGet(client.Url("/presets.json"))]
      ensures var o := old(client.net.Next());
              && client.Snapshot() == AfterGetPresets(old(client.Snapshot()), o)
              && availablePresets == (if |PresetsFound(o)| > 0 then PresetsFound(o) else old(availablePresets))
      ensures drivers == old(drivers)
    {
      var presets := client.GetPresets();
      if |presets| > 0 {
        availablePresets := presets;
      }
    }

    /** `update_status(full_sync)`: refresh the client, then the drivers; when the
        refresh raises, the handler marks the node offline and sets nothing else. */
    method UpdateStatus(full: bool)
      modifies this, client, client.net
      ensures client.net.sent == old(client.net.sent) + [HttpGet(client.Url(if full then "/json" else "/json/state"))]
      ensures Holding() == PollStep(old(Holding()), full, old(client.net.Next()))
    {
      var returned: bool;
      if full {
        var r := client.GetAll();
        returned := !r.Threw?;
      } else {
        var r := client.GetState();
        returned := !r.Threw?;
      }
      if returned {
        ApplyStatus();
      } else {
        drivers := drivers.(online := 0);
      }
    }

    /** The `setDriver` calls of `update_status`, on what the client now holds. */
    method ApplyStatus()
      modifies this
      ensures drivers == StatusDrivers(old(drivers), client.Snapshot())
      ensures availablePresets == old(availablePresets)
    {
      drivers := drivers.(online := if client.cache.online then 1 else 0);
      if client.cache.online && client.cache.state.Some? {
        var st := client.cache.state.value;
        drivers := drivers.(power := if st.on then 1 else 0);
        drivers := drivers.(brightness := Percent(st.brightness));
        match Effect(st) {
          case None =>
            drivers := drivers.(online := 0);
          case Some(fx) =>
            drivers := drivers.(effect := fx);
            drivers := drivers.(palette := Palette(st).value);
            drivers := drivers.(preset := PresetDriver(st.preset));
            var col := PrimaryColor(st).value;
            if |col| >= 3 {
              drivers := drivers.(red := col[0], green := col[1], blue := col[2]);
            }
            match SpeedSegment(st) {
              case Some(seg) =>
                drivers := drivers.(speed := Percent(seg.speed), intensity := Percent(seg.intensity));
              case None =>
            }
            drivers := drivers.(transition := st.transition);
            drivers := drivers.(live := if st.live then 1 else 0);
            drivers := drivers.(nightlight := NightlightDriver(st.nightlightOn, st.nightlightDuration));
            drivers := drivers.(sync := SyncCode(st.syncSend, st.syncReceive));
        }
      }
    }

    /**
     * What a handler does: its `set_state` bodies, in order, then a refresh.
     * When a `set_state` raises, the exception leaves the handler: nothing
     * more is sent and the drivers stay as they were.
     */
    twostate predicate Commanded(posts: seq<Args>, full: bool)
      reads this, client, client.net
    {
      var k := |old(client.net.sent)|;
      var run := RunPosts(old(client.Snapshot()), |posts|, client.net.script, k);
      var url := client.Url("/json/state");
      if run.threw then
        && client.net.sent == old(client.net.sent) + Posts(url, posts[..run.sent])
        && client.Snapshot() == run.cache
        && drivers == old(drivers)
        && availablePresets == old(availablePresets)
      else
        && client.net.sent == old(client.net.sent) + Posts(url, posts)
                              + [HttpGet(client.Url(if full then "/json" else "/json/state"))]
        && Holding() == PollStep(Held(run.cache, old(drivers), old(availablePresets)), full,
                                 Answer(client.net.script, k + |posts|))
    }

    /** One `set_state` call; the drivers wait for the refresh. `returned` is
        false when the call raised. */
    method Post(args: Args) returns (returned: bool)
      modifies client, client.net
      ensures client.net.sent == old(client.net.sent) + [HttpPost(client.Url("/json/state"), Obj(args))]
      ensures var a := AfterSetState(old(client.Snapshot()), old(client.net.Next()));
              client.Snapshot() == a.0 && (returned <==> !a.1.Threw?)
    {
      var r := client.SetState(args);
      returned := !r.Threw?;
    }

    /** One `set_state` call followed by the refresh. */
    method PostThenRefresh(args: Args, full: bool)
      modifies this, client, client.net
      ensures Commanded([args], full)
    {
      ghost var k0 := |client.net.sent|;
      var returned := Post(args);
      assert [args][..1] == [args];
      if returned {
        UpdateStatus(full);
      }
    }

    /** Two `set_state` calls followed by a short refresh. */
    method PostTwiceThenRefresh(first: Args, second: Args)
      modifies this, client, client.net
      ensures Commanded([first, second], false)
    {
      ghost var url := client.Url("/json/state");
      RunTwoPosts(client.Snapshot(), client.net.script, |client.net.sent|);
      var returned := Post(first);
      assert Posts(url, [first, second][..1]) == [HttpPost(url, Obj(first))];
      if returned {
        returned := Post(second);
        assert Posts(url, [first, second]) == [HttpPost(url, Obj(first)), HttpPost(url, Obj(second))];
        assert [first, second][..2] == [first, second];
        if returned {
          UpdateStatus(false);
        }
      }
    }

    /** `query`: a full refresh. */
    method Query()
      modifies this, client, client.net
      ensures Commanded([], true)
    {
      UpdateStatus(true);
    }

    /** `cmd_on`: power on, then the brightness percentage when a value is given. */
    method On(command: map<string, string>) returns (ok: bool)
      modifies this, client, client.net
      ensures ok <==> "value" !in command || ParseInt(command["value"]).Some?
      ensures !ok ==> unchanged(this, client, client.net)
      ensures ok && "value" !in command ==> Commanded([PowerArgs(true)], false)
      ensures ok && "value" in command ==>
                Commanded([PowerArgs(true), BrightnessArgs(PercentToByte(ParseInt(command["value"]).value))], false)
    {
      if "value" in command {
        var brightness := ParseInt(command["value"]);
        if brightness.None? {
          return false;
        }
        PostTwiceThenRefresh(PowerArgs(true), BrightnessArgs(PercentToByte(brightness.value)));
      } else {
        PostThenRefresh(PowerArgs(true), false);
      }
      ok := true;
    }

    /** `cmd_off`. */
    method Off()
      modifies this, client, client.net
      ensures Commanded([PowerArgs(false)], false)
    {
      PostThenRefresh(PowerArgs(false), false);
    }

    /** `cmd_fast_on` / `cmd_fast_off`: power without a transition. */
    method Fast(on: bool)
      modifies this, client, client.net
      ensures Commanded([FastArgs(on)], false)
    {
      PostThenRefresh(FastArgs(on), false);
    }

    /** `cmd_brighten` / `cmd_dim`: a step of 25 from the cached brightness;
        without a cached state nothing happens, not even a refresh. */
    method Step(up: bool)
      modifies this, client, client.net
      ensures old(client.cache.state).None? ==> unchanged(this, client, client.net)
      ensures old(client.cache.state).Some? ==>
                var b := old(client.cache.state).value.brightness;
                Commanded([BrightnessArgs(if up then Brighten(b) else Dim(b))], false)
    {
      if client.cache.state.Some? {
        var b := client.cache.state.value.brightness;
        PostThenRefresh(BrightnessArgs(if up then Brighten(b) else Dim(b)), false);
      }
    }

    /** `cmd_set_brightness`: a percentage, 100 by default. */
    method SetBrightness(command: map<string, string>) returns (ok: bool)
      modifies this, client, client.net
      ensures ok <==> ParamOr(command, "value", 100).Some?
      ensures !ok ==> unchanged(this, client, client.net)
      ensures ok ==> Commanded([BrightnessArgs(PercentToByte(ParamOr(command, "value", 100).value))], false)
    {
      var p := ParamOr(command, "value", 100);
      if p.None? {
        return false;
      }
      PostThenRefresh(BrightnessArgs(PercentToByte(p.value)), false);
      ok := true;
    }

    /** `cmd_set_effect`: effect 0 by default. */
    method SetEffect(command: map<string, string>) returns (ok: bool)
      modifies this, client, client.net
      ensures ok <==> ParamOr(command, "value", 0).Some?
      ensures !ok ==> unchanged(this, client, client.net)
      ensures ok ==> Commanded([EffectArgs(ParamOr(command, "value", 0).value, None, None)], false)
    {
      var fx := ParamOr(command, "value", 0);
      if fx.None? {
        return false;
      }
      PostThenRefresh(EffectArgs(fx.value, None, None), false);
      ok := true;
    }

    /** `cmd_set_palette`: palette 0 by default. */
    method SetPalette(command: map<string, string>) returns (ok: bool)
      modifies this, client, client.net
      ensures ok <==> ParamOr(command, "value", 0).Some?
      ensures !ok ==> unchanged(this, client, client.net)
      ensures ok ==> Commanded([PaletteArgs(ParamOr(command, "value", 0).value)], false)
    {
      var pal := ParamOr(command, "value", 0);
      if pal.None? {
        return false;
      }
      PostThenRefresh(PaletteArgs(pal.value), false);
      ok := true;
    }

    /** `cmd_set_preset`: preset 1 by default, followed by a full refresh. */
    method SetPreset(command: map<string, string>) returns (ok: bool)
      modifies this, client, client.net
      ensures ok <==> ParamOr(command, "value", 1).Some?
      ensures !ok ==> unchanged(this, client, client.net)
      ensures ok ==> Commanded([PresetArgs(ParamOr(command, "value", 1).value)], true)
    {
      var ps := ParamOr(command, "value", 1);
      if ps.None? {
        return false;
      }
      PostThenRefresh(PresetArgs(ps.value), true);
      ok := true;
    }

    /** `cmd_set_color`: each channel from `X.uom56`, else `X`, else 255; white 0. */
    method SetColor(command: map<string, string>) returns (ok: bool)
      modifies this, client, client.net
      ensures ok <==> ColorParam(command, "R").Some? && ColorParam(command, "G").Some? && ColorParam(command, "B").Some?
      ensures !ok ==> unchanged(this, client, client.net)
      ensures ok ==> Commanded([ColorArgs(ColorParam(command, "R").value, ColorParam(command, "G").value,
                                          ColorParam(command, "B").value, 0)], false)
    {
      var r := ColorParam(command, "R");
      if r.None? {
        return false;
      }
      var g := ColorParam(command, "G");
      if g.None? {
        return false;
      }
      var b := ColorParam(command, "B");
      if b.None? {
        return false;
      }
      PostThenRefresh(ColorArgs(r.value, g.value, b.value, 0), false);
      ok := true;
    }

    /**
     * `cmd_set_speed` / `cmd_set_intensity`: a percentage, 128 by default,
     * re-sent with the cached state's effect. Without a cached state only the
     * refresh happens; a cached state whose `effect` raises ends the handler.
     */
    method SetEffectParameter(command: map<string, string>, speed: bool) returns (ok: bool)
      modifies this, client, client.net
      ensures ok <==> ParamOr(command, "value", 128).Some?
                      && !(old(client.cache.state).Some? && Effect(old(client.cache.state).value).None?)
      ensures !ok ==> unchanged(this, client, client.net)
      ensures ok && old(client.cache.state).None? ==> Commanded([], false)
      ensures ok && old(client.cache.state).Some? ==>
                var v := Some(PercentToByte(ParamOr(command, "value", 128).value));
                var fx := Effect(old(client.cache.state).value).value;
                Commanded([if speed then EffectArgs(fx, v, None) else EffectArgs(fx, None, v)], false)
    {
      var p := ParamOr(command, "value", 128);
      if p.None? {
        return false;
      }
      var v := PercentToByte(p.value);
      if client.cache.state.Some? {
        var fx := Effect(client.cache.state.value);
        if fx.None? {
          return false;
        }
        PostThenRefresh(if speed then EffectArgs(fx.value, Some(v), None) else EffectArgs(fx.value, None, Some(v)), false);
      } else {
        UpdateStatus(false);
      }
      ok := true;
    }

    /** `cmd_set_transition`: 7 (tenths of a second) by default. */
    method SetTransition(command: map<string, string>) returns (ok: bool)
      modifies this, client, client.net
      ensures ok <==> ParamOr(command, "value", 7).Some?
      ensures !ok ==> unchanged(this, client, client.net)
      ensures ok ==> Commanded([TransitionArgs(ParamOr(command, "value", 7).value)], false)
    {
      var t := ParamOr(command, "value", 7);
      if t.None? {
        return false;
      }
      PostThenRefresh(TransitionArgs(t.value), false);
      ok := true;
    }

    /** `cmd_set_live`: a positive value turns the live override on. */
    method SetLive(command: map<string, string>) returns (ok: bool)
      modifies this, client, client.net
      ensures ok <==> ParamOr(command, "value", 0).Some?
      ensures !ok ==> unchanged(this, client, client.net)
      ensures ok ==> Commanded([LiveArgs(ParamOr(command, "value", 0).value > 0)], false)
    {
      var v := ParamOr(command, "value", 0);
      if v.None? {
        return false;
      }
      PostThenRefresh(LiveArgs(v.value > 0), false);
      ok := true;
    }

    /** `cmd_nightlight_on`: 60 minutes by default; 0 turns the nightlight off. */
    method NightlightOn(command: map<string, string>) returns (ok: bool)
      modifies this, client, client.net
      ensures ok <==> ParamOr(command, "value", 60).Some?
      ensures !ok ==> unchanged(this, client, client.net)
      ensures ok ==> Commanded([NightlightArgs(ParamOr(command, "value", 60).value)], false)
    {
      var duration := ParamOr(command, "value", 60);
      if duration.None? {
        return false;
      }
      PostThenRefresh(NightlightArgs(duration.value), false);
      ok := true;
    }

    /** `cmd_nightlight_off`. */
    method NightlightOff()
      modifies this, client, client.net
      ensures Commanded([NightlightOffArgs()], false)
    {
      PostThenRefresh(NightlightOffArgs(), false);
    }

    /** `cmd_sync_send` / `cmd_sync_receive`: a positive value enables that direction. */
    method SetSync(command: map<string, string>, send: bool) returns (ok: bool)
      modifies this, client, client.net
      ensures ok <==> ParamOr(command, "value", 0).Some?
      ensures !ok ==> unchanged(this, client, client.net)
      ensures ok ==>
                var on := ParamOr(command, "value", 0).value > 0;
                Commanded([if send then SyncSendArgs(on) else SyncReceiveArgs(on)], false)
    {
      var v := ParamOr(command, "value", 0);
      if v.None? {
        return false;
      }
      PostThenRefresh(if send then SyncSendArgs(v.value > 0) else SyncReceiveArgs(v.value > 0), false);
      ok := true;
    }

    /** `cmd_save_preset`: slot 1 by default. */
    method SavePreset(command: map<string, string>) returns (ok: bool)
      modifies this, client, client.net
      ensures ok <==> ParamOr(command, "value", 1).Some?
      ensures !ok ==> unchanged(this, client, client.net)
      ensures ok ==> Commanded([SavePresetArgs(ParamOr(command, "value", 1).value)], false)
    {
      var id := ParamOr(command, "value", 1);
      if id.None? {
        return false;
      }
      PostThenRefresh(SavePresetArgs(id.value), false);
      ok := true;
    }

    /** `cmd_playlist_on`: playlist 0 by default. */
    method PlaylistOn(command: map<string, string>) returns (ok: bool)
      modifies this, client, client.net
      ensures ok <==> ParamOr(command, "value", 0).Some?
      ensures !ok ==> unchanged(this, client, client.net)
      ensures ok ==> Commanded([PlaylistArgs(ParamOr(command, "value", 0).value)], false)
    {
      var id := ParamOr(command, "value", 0);
      if id.None? {
        return false;
      }
      PostThenRefresh(PlaylistArgs(id.value), false);
      ok := true;
    }

    /** `cmd_playlist_off`. */
    method PlaylistOff()
      modifies this, client, client.net
      ensures Commanded([PlaylistArgs(-1)], false)
    {
      PostThenRefresh(PlaylistArgs(-1), false);
    }
  }
}
