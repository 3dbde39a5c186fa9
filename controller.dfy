/**
 * The controller node: the registry of device nodes, the configuration
 * string that fills it, discovery, polling and the preset rebuild.
 */
module Controller {
  import opened Options
  import opened Text
  import opened Json
  import opened Http
  import opened WledApi
  import opened WledDevice
  import Nls

  // ---------------------------------------------------------------------
  // Node addresses.
  // ---------------------------------------------------------------------

  /** The characters a derived node address is made of. */
  predicate IsAddressChar(c: char) {
    IsDigit(c) || 'a' <= c <= 'z' || c == '_'
  }

  predicate IsAddress(a: string) {
    |a| <= 14 && forall k :: 0 <= k < |a| ==> IsAddressChar(a[k])
  }

  /** `''.join(c for c in s if c.isalnum() or c == '_')`. */
  function KeepAddressChars(s: string): (r: string)
    ensures |r| <= |s|
    ensures forall k :: 0 <= k < |r| ==> r[k] in s && (IsAlnum(r[k]) || r[k] == '_')
  {
    if |s| == 0 then ""
    else
      var rest := KeepAddressChars(s[1..]);
      assert forall k :: 0 <= k < |rest| ==> rest[k] in s by {
        forall k | 0 <= k < |rest|
          ensures rest[k] in s
        {
          assert rest[k] in s[1..];
        }
      }
      if IsAlnum(s[0]) || s[0] == '_' then [s[0]] + rest else rest
  }

  lemma {:induction false} KeepAddressCharsAll(s: string)
    requires forall k :: 0 <= k < |s| ==> IsAddressChar(s[k])
    ensures KeepAddressChars(s) == s
  {
    if |s| > 0 {
      KeepAddressCharsAll(s[1..]);
      assert s == [s[0]] + s[1..];
    }
  }

  /** The filter works piecewise. */
  lemma {:induction false} KeepAddressCharsAppend(a: string, b: string)
    ensures KeepAddressChars(a + b) == KeepAddressChars(a) + KeepAddressChars(b)
  {
    if |a| == 0 {
      assert a + b == b;
    } else {
      assert (a + b)[1..] == a[1..] + b;
      KeepAddressCharsAppend(a[1..], b);
    }
  }

  /** One character is kept exactly when it is alphanumeric or `_`. */
  lemma KeepAddressCharsOne(c: char)
    ensures KeepAddressChars([c]) == if IsAlnum(c) || c == '_' then [c] else []
  {
    assert [c][1..] == [];
  }

  /** The node address `_add_wled_device` derives from a device name. */
  function AddressOf(name: string): (a: string)
    ensures IsAddress(a)
  {
    var lowered := Lower(name);
    var spaced := ReplaceAll(lowered, " ", "_");
    var dotted := ReplaceAll(spaced, ".", "_");
    ReplaceCharLength(lowered, ' ', '_');
    ReplaceCharLength(spaced, '.', '_');
    assert forall k :: 0 <= k < |dotted| ==> !('A' <= dotted[k] <= 'Z');
    var kept := KeepAddressChars(dotted);
    assert forall k :: 0 <= k < |kept| ==> IsAddressChar(kept[k]) by {
      forall k | 0 <= k < |kept|
        ensures IsAddressChar(kept[k])
      {
        var j :| 0 <= j < |dotted| && dotted[j] == kept[k];
      }
    }
    if |kept| <= 14 then kept else kept[..14]
  }

  /** An address is its own address: deriving twice changes nothing. */
  lemma AddressOfAddress(a: string)
    requires IsAddress(a)
    ensures AddressOf(a) == a
  {
    var lowered := Lower(a);
    assert lowered == a;
    ReplaceCharLength(a, ' ', '_');
    var spaced := ReplaceAll(a, " ", "_");
    assert spaced == a;
    ReplaceCharLength(a, '.', '_');
    assert ReplaceAll(a, ".", "_") == a;
    KeepAddressCharsAll(a);
  }

  /** A name of ASCII letters, digits, `_`, spaces and dots derives to its first
      14 characters, lowered, with each space and dot turned into `_`. */
  lemma AddressOfSimpleName(name: string)
    requires forall k :: 0 <= k < |name| ==>
               IsAlnum(name[k]) || name[k] == '_' || name[k] == ' ' || name[k] == '.'
    ensures |AddressOf(name)| == if |name| <= 14 then |name| else 14
    ensures forall k :: 0 <= k < |AddressOf(name)| ==>
              AddressOf(name)[k] == (if name[k] == ' ' || name[k] == '.' then '_' else Lower(name)[k])
  {
    var lowered := Lower(name);
    var spaced := ReplaceAll(lowered, " ", "_");
    var dotted := ReplaceAll(spaced, ".", "_");
    ReplaceCharLength(lowered, ' ', '_');
    ReplaceCharLength(spaced, '.', '_');
    assert forall k :: 0 <= k < |name| ==>
      dotted[k] == (if name[k] == ' ' || name[k] == '.' then '_' else lowered[k]) && IsAddressChar(dotted[k]);
    KeepAddressCharsAll(dotted);
  }

  lemma AddressIdempotent(name: string)
    ensures AddressOf(AddressOf(name)) == AddressOf(name)
  {
    AddressOfAddress(AddressOf(name));
  }

  // ---------------------------------------------------------------------
  // The registry as configurations.
  // ---------------------------------------------------------------------

  /** What the registry keeps about a device besides its node. */
  datatype Config = Config(address: string, name: string, ip: string, port: int)

  predicate HasAddress(cs: seq<Config>, a: string) {
    exists i :: 0 <= i < |cs| && cs[i].address == a
  }

  predicate DistinctAddresses(cs: seq<Config>) {
    forall i, j :: 0 <= i < j < |cs| ==> cs[i].address != cs[j].address
  }

  /** `_add_wled_device` on the registry: a name whose address is taken is ignored. */
  function AddConfig(cs: seq<Config>, name: string, ip: string, port: int): (r: seq<Config>)
    ensures |cs| <= |r| <= |cs| + 1 && r[..|cs|] == cs
    ensures HasAddress(r, AddressOf(name))
    ensures |r| == |cs| + 1 <==> !HasAddress(cs, AddressOf(name))
    ensures |r| == |cs| + 1 ==> r[|cs|] == Config(AddressOf(name), name, ip, port)
  {
    var a := AddressOf(name);
    if HasAddress(cs, a) then cs
    else
      var r := cs + [Config(a, name, ip, port)];
      assert r[|cs|].address == a;
      r
  }

  /** A device wanted in the registry: a name and an address. */
  datatype Wanted = Wanted(name: string, ip: string)

  /** The registry after adding each wanted device in turn. */
  function AddAll(cs: seq<Config>, ws: seq<Wanted>, port: int): seq<Config> {
    if |ws| == 0 then cs
    else AddConfig(AddAll(cs, ws[..|ws| - 1], port), ws[|ws| - 1].name, ws[|ws| - 1].ip, port)
  }

  lemma HasAddressExtends(cs: seq<Config>, r: seq<Config>, a: string)
    requires |cs| <= |r| && r[..|cs|] == cs && HasAddress(cs, a)
    ensures HasAddress(r, a)
  {
    var i :| 0 <= i < |cs| && cs[i].address == a;
    assert r[i] == cs[i];
  }

  /** Adding devices only appends to the registry, at most one entry per device. */
  lemma {:induction false} AddAllExtends(cs: seq<Config>, ws: seq<Wanted>, port: int)
    ensures |cs| <= |AddAll(cs, ws, port)| <= |cs| + |ws|
    ensures AddAll(cs, ws, port)[..|cs|] == cs
  {
    if |ws| > 0 {
      AddAllExtends(cs, ws[..|ws| - 1], port);
      var before := AddAll(cs, ws[..|ws| - 1], port);
      assert AddAll(cs, ws, port)[..|before|] == before;
      assert AddAll(cs, ws, port)[..|cs|] == before[..|cs|];
    }
  }

  lemma AddConfigDistinct(cs: seq<Config>, name: string, ip: string, port: int)
    requires DistinctAddresses(cs)
    ensures DistinctAddresses(AddConfig(cs, name, ip, port))
  {
    var r := AddConfig(cs, name, ip, port);
    if |r| > |cs| {
      forall i, j | 0 <= i < j < |r|
        ensures r[i].address != r[j].address
      {
        if j == |cs| {
          assert r[i] == cs[i];
        } else {
          assert r[i] == cs[i] && r[j] == cs[j];
        }
      }
    }
  }

  /** Distinct addresses stay distinct: the registry never holds two nodes with one address. */
  lemma {:induction false} AddAllDistinct(cs: seq<Config>, ws: seq<Wanted>, port: int)
    requires DistinctAddresses(cs)
    ensures DistinctAddresses(AddAll(cs, ws, port))
  {
    if |ws| > 0 {
      var init := ws[..|ws| - 1];
      AddAllDistinct(cs, init, port);
      AddConfigDistinct(AddAll(cs, init, port), ws[|ws| - 1].name, ws[|ws| - 1].ip, port);
    }
  }

  /** After adding, every wanted device's address is registered. */
  lemma {:induction false} AddAllRegisters(cs: seq<Config>, ws: seq<Wanted>, port: int)
    ensures forall k :: 0 <= k < |ws| ==> HasAddress(AddAll(cs, ws, port), AddressOf(ws[k].name))
  {
    if |ws| > 0 {
      var init := ws[..|ws| - 1];
      AddAllRegisters(cs, init, port);
      var before := AddAll(cs, init, port);
      var r := AddAll(cs, ws, port);
      forall k | 0 <= k < |ws| - 1
        ensures HasAddress(r, AddressOf(ws[k].name))
      {
        assert ws[k] == init[k];
        HasAddressExtends(before, r, AddressOf(ws[k].name));
      }
    }
  }

  /** The configuration each wanted device would get, in order. */
  function WantedConfigs(ws: seq<Wanted>, port: int): (cs: seq<Config>)
    ensures |cs| == |ws|
  {
    if |ws| == 0 then []
    else
      var w := ws[|ws| - 1];
      WantedConfigs(ws[..|ws| - 1], port) + [Config(AddressOf(w.name), w.name, w.ip, port)]
  }

  /** Every entry added is the configuration of one of the wanted devices. */
  lemma {:induction false} AddAllOnlyWanted(cs: seq<Config>, ws: seq<Wanted>, port: int)
    ensures forall i :: |cs| <= i < |AddAll(cs, ws, port)| ==> AddAll(cs, ws, port)[i] in WantedConfigs(ws, port)
  {
    if |ws| > 0 {
      var init := ws[..|ws| - 1];
      var w := ws[|ws| - 1];
      AddAllOnlyWanted(cs, init, port);
      AddAllExtends(cs, init, port);
      var before := AddAll(cs, init, port);
      var r := AddConfig(before, w.name, w.ip, port);
      var wc := WantedConfigs(ws, port);
      assert wc == WantedConfigs(init, port) + [Config(AddressOf(w.name), w.name, w.ip, port)];
      forall i | |cs| <= i < |r|
        ensures r[i] in wc
      {
        if i < |before| {
          assert r[i] == before[i];
        }
      }
    }
  }

  lemma AddAllStep(cs: seq<Config>, ws: seq<Wanted>, w: Wanted, port: int)
    ensures AddAll(cs, ws + [w], port) == AddConfig(AddAll(cs, ws, port), w.name, w.ip, port)
    ensures AddRequests(cs, ws + [w], port) == AddRequests(cs, ws, port) + NewRequests(AddAll(cs, ws, port), w, port)
  {
    assert (ws + [w])[..|ws|] == ws;
  }

  /** The requests adding one device sends: none when its address is taken,
      otherwise the new node's full refresh and its preset fetch. */
  function NewRequests(cs: seq<Config>, w: Wanted, port: int): seq<Request> {
    if HasAddress(cs, AddressOf(w.name)) then []
    else [HttpGet(BaseUrl(w.ip, port) + "/json"), HttpGet(BaseUrl(w.ip, port) + "/presets.json")]
  }

  /** The requests adding each wanted device in turn sends. */
  function AddRequests(cs: seq<Config>, ws: seq<Wanted>, port: int): (rs: seq<Request>)
    ensures |rs| == 2 * (|AddAll(cs, ws, port)| - |cs|)
  {
    if |ws| == 0 then []
    else
      var init := ws[..|ws| - 1];
      AddRequests(cs, init, port) + NewRequests(AddAll(cs, init, port), ws[|ws| - 1], port)
  }

  /** `_remove_wled_device` on the registry: the configurations with other addresses, in order. */
  function RemoveConfig(cs: seq<Config>, a: string): seq<Config> {
    if |cs| == 0 then []
    else if cs[0].address == a then RemoveConfig(cs[1..], a)
    else [cs[0]] + RemoveConfig(cs[1..], a)
  }

  /** Removal keeps exactly the configurations with another address. */
  lemma {:induction false} RemoveConfigKeeps(cs: seq<Config>, a: string)
    ensures forall c :: c in RemoveConfig(cs, a) <==> c in cs && c.address != a
  {
    if |cs| > 0 {
      RemoveConfigKeeps(cs[1..], a);
      assert forall c :: c in cs <==> c == cs[0] || c in cs[1..];
    }
  }

  lemma {:induction false} RemoveAbsent(cs: seq<Config>, a: string)
    requires forall k :: 0 <= k < |cs| ==> cs[k].address != a
    ensures RemoveConfig(cs, a) == cs
  {
    if |cs| > 0 {
      RemoveAbsent(cs[1..], a);
      assert cs == [cs[0]] + cs[1..];
    }
  }

  /** With distinct addresses, removing an address deletes exactly its one entry. */
  lemma {:induction false} RemoveConfigAt(cs: seq<Config>, i: nat)
    requires DistinctAddresses(cs) && i < |cs|
    ensures RemoveConfig(cs, cs[i].address) == cs[..i] + cs[i + 1..]
  {
    var a := cs[i].address;
    var tail := cs[1..];
    if i == 0 {
      assert forall k :: 0 <= k < |tail| ==> tail[k] == cs[k + 1];
      RemoveAbsent(tail, a);
      assert cs[..0] + cs[1..] == tail;
    } else {
      assert DistinctAddresses(tail) by {
        assert forall k :: 0 <= k < |tail| ==> tail[k] == cs[k + 1];
      }
      assert tail[i - 1] == cs[i];
      assert cs[0].address != a;
      RemoveConfigAt(tail, i - 1);
      assert RemoveConfig(cs, a) == [cs[0]] + (tail[..i - 1] + tail[i..]);
      assert cs[..i] == [cs[0]] + tail[..i - 1];
      assert cs[i + 1..] == tail[i..];
    }
  }

  /** Deleting position i keeps the positions before it and moves those behind it up by one. */
  lemma DeleteAt<T>(s: seq<T>, r: seq<T>, i: nat)
    requires i < |s| && r == s[..i] + s[i + 1..]
    ensures |r| == |s| - 1
    ensures forall k :: 0 <= k < i ==> r[k] == s[k]
    ensures forall k :: i <= k < |r| ==> r[k] == s[k + 1]
  {
  }

  /** The position of a registered address. */
  function AddressIndex(cs: seq<Config>, a: string): (i: nat)
    requires HasAddress(cs, a)
    ensures i < |cs| && cs[i].address == a
  {
    if cs[0].address == a then 0
    else
      assert HasAddress(cs[1..], a) by {
        var j :| 0 <= j < |cs| && cs[j].address == a;
        assert cs[1..][j - 1] == cs[j];
      }
      1 + AddressIndex(cs[1..], a)
  }

  /** No configuration with the removed address is left. */
  lemma RemoveConfigGone(cs: seq<Config>, a: string)
    ensures !HasAddress(RemoveConfig(cs, a), a)
  {
    RemoveConfigKeeps(cs, a);
    var r := RemoveConfig(cs, a);
    assert forall i :: 0 <= i < |r| ==> r[i] in r;
  }

  // ---------------------------------------------------------------------
  // The `devices` configuration string.
  // ---------------------------------------------------------------------

  /** One comma-separated entry: `name:ip`, or a bare address named after itself. */
  function ParseEntry(entry: string): (r: Option<Wanted>)
    ensures r.Some? ==> r.value.name != "" && r.value.ip != ""
    ensures Strip(entry) == "" ==> r.None?
  {
    var e := Strip(entry);
    if e == "" then None
    else if ':' in e then
      var parts := Split(e, ':');
      SplitTwo(e, ':');
      var name := Strip(parts[0]);
      var ip := Strip(parts[1]);
      if name != "" && ip != "" then Some(Wanted(name, ip)) else None
    else
      var ip := Strip(e);
      ReplaceCharLength(ip, '.', '_');
      Some(Wanted(ReplaceAll(ip, ".", "_"), ip))
  }

  /** White space around an entry does not matter: the entry is stripped first. */
  lemma ParseEntryPadded(p: string, e: string, q: string)
    requires AllSpace(p) && AllSpace(q)
    ensures ParseEntry(p + e + q) == ParseEntry(e)
  {
    var pre, post := StripSplits(e);
    assert p + e + q == (p + pre) + Strip(e) + (post + q);
    AllSpaceAppend(p, pre);
    AllSpaceAppend(post, q);
    StripPadded(p + pre, Strip(e), post + q);
  }

  /** A bare address is named after itself with every `.` turned into `_`. */
  lemma ParseBareEntry(ip: string)
    requires ip != "" && ':' !in ip && !IsSpace(ip[0]) && !IsSpace(ip[|ip| - 1])
    ensures ParseEntry(ip).Some? && ParseEntry(ip).value.ip == ip
    ensures var n := ParseEntry(ip).value.name;
            |n| == |ip| && forall k :: 0 <= k < |ip| ==> n[k] == (if ip[k] == '.' then '_' else ip[k])
  {
    StripNoSpace(ip);
    ReplaceCharLength(ip, '.', '_');
  }

  /** `name:ip` takes the first two fields: whatever follows a second `:` is ignored. */
  lemma ParseEntryFields(n: string, i: string, rest: string)
    requires Plain(n) && Plain(i)
    ensures ParseEntry(n + ":" + i + ":" + rest) == Some(Wanted(n, i))
  {
    var e := n + ":" + i + ":" + rest;
    var m := |n| + |i| + 2;
    var a := SkipSpaces(e, 0);
    assert e[0] == n[0];
    assert a == 0;
    var b := DropSpaces(e, 0, |e|);
    assert e[m - 1] == ':';
    assert b >= m;
    var r := e[m..b];
    assert Strip(e) == n + [':'] + (i + [':'] + r);
    SplitFirst(n, ':', i + [':'] + r);
    SplitFirst(i, ':', r);
    StripNoSpace(n);
    StripNoSpace(i);
  }

  /** The wanted devices `parse` finds in a list of entries, in order. */
  function ParsedBy(entries: seq<string>, parse: string -> Option<Wanted>): (ws: seq<Wanted>)
    ensures |ws| <= |entries|
  {
    if |entries| == 0 then []
    else ParsedBy(entries[..|entries| - 1], parse) + Parsed(parse(entries[|entries| - 1]))
  }

  /** The wanted devices of a list of entries, in order. */
  function ParseEntries(entries: seq<string>): seq<Wanted> {
    ParsedBy(entries, ParseEntry)
  }

  /** Every wanted device parsed from the configuration has a name and an address. */
  lemma {:induction false} ParsedNonEmpty(entries: seq<string>)
    ensures forall k :: 0 <= k < |ParseEntries(entries)| ==>
              ParseEntries(entries)[k].name != "" && ParseEntries(entries)[k].ip != ""
  {
    if |entries| > 0 {
      var init := entries[..|entries| - 1];
      var w := ParseEntry(entries[|entries| - 1]);
      ParsedNonEmpty(init);
      assert ParseEntries(entries) == ParseEntries(init) + Parsed(w);
    }
  }

  /** `_parse_devices` on the configuration string. */
  function ParseConfig(devices: string): seq<Wanted> {
    if devices == "" then [] else ParseEntries(Split(devices, ','))
  }

  /** A name or address that can be written into the configuration string. */
  predicate Plain(x: string) {
    x != "" && ',' !in x && ':' !in x && !IsSpace(x[0]) && !IsSpace(x[|x| - 1])
  }

  function Item(w: Wanted): string {
    w.name + ":" + w.ip
  }

  function Items(ws: seq<Wanted>): (items: seq<string>)
    ensures |items| == |ws|
    ensures forall k :: 0 <= k < |ws| ==> items[k] == Item(ws[k])
  {
    if |ws| == 0 then [] else Items(ws[..|ws| - 1]) + [Item(ws[|ws| - 1])]
  }

  /** The configuration string listing the devices as `name:ip` pairs. */
  function FormatConfig(ws: seq<Wanted>): string {
    Join(Items(ws), ',')
  }

  lemma ParseItem(w: Wanted)
    requires Plain(w.name) && Plain(w.ip)
    ensures ParseEntry(Item(w)) == Some(w)
  {
    var e := Item(w);
    assert e[0] == w.name[0] && e[|e| - 1] == w.ip[|w.ip| - 1];
    StripNoSpace(e);
    assert e[|w.name|] == ':';
    assert Join([w.name, w.ip], ':') == w.name + [':'] + Join([w.ip], ':');
    assert e == Join([w.name, w.ip], ':');
    SplitJoin([w.name, w.ip], ':');
    StripNoSpace(w.name);
    StripNoSpace(w.ip);
  }

  lemma ParseEntriesStep(es: seq<string>, e: string)
    ensures ParseEntries(es + [e]) == ParseEntries(es) + Parsed(ParseEntry(e))
  {
    assert (es + [e])[..|es|] == es;
  }

  lemma ParseEntriesSnoc(es: seq<string>, e: string, w: Wanted)
    requires ParseEntry(e) == Some(w)
    ensures ParseEntries(es + [e]) == ParseEntries(es) + [w]
  {
    assert (es + [e])[..|es|] == es;
  }

  /** Entries that each parse to a wanted device parse to those devices, in order. */
  lemma {:induction false} ParsedAll(entries: seq<string>, ws: seq<Wanted>, parse: string -> Option<Wanted>)
    requires |entries| == |ws|
    requires forall k :: 0 <= k < |ws| ==> parse(entries[k]) == Some(ws[k])
    ensures ParsedBy(entries, parse) == ws
  {
    if |ws| > 0 {
      var n := |ws| - 1;
      forall k | 0 <= k < n
        ensures parse(entries[..n][k]) == Some(ws[..n][k])
      {
        assert entries[..n][k] == entries[k] && ws[..n][k] == ws[k];
      }
      ParsedAll(entries[..n], ws[..n], parse);
      assert ws == ws[..n] + [ws[n]];
    }
  }

  lemma ParseItems(ws: seq<Wanted>)
    requires forall k :: 0 <= k < |ws| ==> Plain(ws[k].name) && Plain(ws[k].ip)
    ensures ParseEntries(Items(ws)) == ws
  {
    var items := Items(ws);
    forall k | 0 <= k < |ws|
      ensures ParseEntry(items[k]) == Some(ws[k])
    {
      ParseItem(ws[k]);
    }
    ParsedAll(items, ws, ParseEntry);
  }

  /** Writing plain devices as a configuration string and parsing it gives them back. */
  lemma ParseFormatConfig(ws: seq<Wanted>)
    requires |ws| > 0
    requires forall k :: 0 <= k < |ws| ==> Plain(ws[k].name) && Plain(ws[k].ip)
    ensures ParseConfig(FormatConfig(ws)) == ws
  {
    var items := Items(ws);
    assert forall k :: 0 <= k < |items| ==> ',' !in items[k] by {
      forall k | 0 <= k < |items|
        ensures ',' !in items[k]
      {
        var w := ws[k];
        assert items[k] == w.name + ":" + w.ip;
        assert forall j :: 0 <= j < |items[k]| ==> items[k][j] != ',' by {
          forall j | 0 <= j < |items[k]|
            ensures items[k][j] != ','
          {
            if j < |w.name| {
              assert items[k][j] == w.name[j];
            } else if j > |w.name| {
              assert items[k][j] == w.ip[j - |w.name| - 1];
            }
          }
        }
      }
    }
    SplitJoin(items, ',');
    ParseItems(ws);
    assert |Join(items, ',')| >= |items[0]| > 0;
  }

  // ---------------------------------------------------------------------
  // Discovery.
  // ---------------------------------------------------------------------

  /**
   * The node name `discover` gives a found device: its `name` without
   * `.local`, dots made underscores, or the address made so when that is
   * empty. `None` when the name is not a string: `.replace` raises and
   * discovery stops there.
   */
  function DiscoveredName(d: Discovered): (r: Option<string>)
    ensures r.Some? <==> d.name.Str?
    ensures r.Some? ==> '.' !in r.value
    ensures r.Some? && d.ip != "" ==> r.value != ""
    ensures d.name.Str? && d.name.s != "" && '.' !in d.name.s ==> r == Some(d.name.s)
    ensures d.name.Str? ==>
              var bare := ReplaceAll(d.name.s, ".local", "");
              var from := if bare == "" then d.ip else bare;
              && |r.value| == |from|
              && forall k :: 0 <= k < |from| ==> r.value[k] == (if from[k] == '.' then '_' else from[k])
  {
    if d.name.Str? then
      var bare := ReplaceAll(d.name.s, ".local", "");
      var n := ReplaceAll(bare, ".", "_");
      ReplaceCharRemoves(bare, '.', "_");
      ReplaceCharLength(bare, '.', '_');
      ReplaceCharRemoves(d.ip, '.', "_");
      ReplaceCharLength(d.ip, '.', '_');
      assert '.' !in d.name.s ==> n == d.name.s by {
        if '.' !in d.name.s {
          ReplaceAbsent(d.name.s, ".local", "");
          ReplaceAbsent(bare, ".", "_");
        }
      }
      Some(if n == "" then ReplaceAll(d.ip, ".", "_") else n)
    else None
  }

  /** A plain host name advertised as `<name>.local` is found under `<name>` itself. */
  lemma DiscoveredLocalName(s: string, ip: string, port: int, mac: Json)
    requires s != "" && '.' !in s
    ensures DiscoveredName(Discovered(ip, port, Str(s + ".local"), mac)) == Some(s)
  {
    var d := Discovered(ip, port, Str(s + ".local"), mac);
    ReplaceSuffix(s, ".local", "");
    assert s + "" == s;
    var r := DiscoveredName(d).value;
    assert |r| == |s| && forall k :: 0 <= k < |s| ==> r[k] == s[k];
    assert r == s;
  }

  /** How many found devices, from the first, have a string name. */
  function Leading(ds: seq<Discovered>): (n: nat)
    ensures n <= |ds|
    ensures forall k :: 0 <= k < n ==> ds[k].name.Str?
    ensures n < |ds| ==> !ds[n].name.Str?
  {
    if |ds| == 0 || !ds[0].name.Str? then 0
    else
      var n := Leading(ds[1..]);
      assert forall k :: 1 <= k < n + 1 ==> ds[k] == ds[1..][k - 1];
      n + 1
  }

  /** The first `n` found devices as wanted devices. */
  function NamedWanted(ds: seq<Discovered>, n: nat): (ws: seq<Wanted>)
    requires n <= Leading(ds)
    ensures |ws| == n
  {
    if n == 0 then [] else NamedWanted(ds, n - 1) + [Wanted(DiscoveredName(ds[n - 1]).value, ds[n - 1].ip)]
  }

  /** The k-th wanted device is the k-th found one under its normalised name. */
  lemma {:induction false} NamedWantedAt(ds: seq<Discovered>, n: nat)
    requires n <= Leading(ds)
    ensures forall k :: 0 <= k < n ==> NamedWanted(ds, n)[k] == Wanted(DiscoveredName(ds[k]).value, ds[k].ip)
  {
    if n > 0 {
      NamedWantedAt(ds, n - 1);
    }
  }

  /** The devices `discover` adds, in order. */
  function DiscoveredWanted(ds: seq<Discovered>): seq<Wanted> {
    NamedWanted(ds, Leading(ds))
  }

  /** What the probe of the local /24 finds, when the k-th probe gets `Answer(script, start + k)`. */
  function Probed(localIp: Option<string>, script: seq<Outcome>, start: nat): seq<Discovered> {
    if localIp.None? || localIp.value == "" then []
    else
      var ips := CandidateIps(SubnetPrefix(localIp.value));
      Found(ips, script, start)
  }

  function ProbeSent(localIp: Option<string>): seq<Request> {
    if localIp.None? || localIp.value == "" then []
    else ProbeRequests(CandidateIps(SubnetPrefix(localIp.value)))
  }

  // ---------------------------------------------------------------------
  // Merging presets.
  // ---------------------------------------------------------------------

  /** Adding one device's presets: an id already collected keeps its name. */
  function MergeFirst(acc: map<int, Json>, p: map<int, Json>): (r: map<int, Json>)
    ensures r.Keys == acc.Keys + p.Keys
    ensures forall id :: id in acc ==> r[id] == acc[id]
    ensures forall id :: id in p && id !in acc ==> r[id] == p[id]
  {
    map id | id in acc.Keys + p.Keys :: if id in acc then acc[id] else p[id]
  }

  /** The presets of the first n devices, in registry order. */
  function MergeAll(ps: seq<map<int, Json>>, n: nat): map<int, Json>
    requires n <= |ps|
  {
    if n == 0 then map[] else MergeFirst(MergeAll(ps, n - 1), ps[n - 1])
  }

  /** An id is collected exactly when one of the first n devices has it. */
  lemma {:induction false} MergeAllHas(ps: seq<map<int, Json>>, n: nat, id: int)
    requires n <= |ps|
    ensures id in MergeAll(ps, n) <==> exists i :: 0 <= i < n && id in ps[i]
  {
    if n > 0 {
      MergeAllHas(ps, n - 1, id);
      if id in ps[n - 1] {
        assert id in MergeAll(ps, n);
      }
    }
  }

  /** An id takes the name of the first device, in registry order, that has it. */
  lemma {:induction false} MergeAllFirstWins(ps: seq<map<int, Json>>, n: nat, id: int, i: nat)
    requires i < n <= |ps| && id in ps[i]
    requires forall j :: 0 <= j < i ==> id !in ps[j]
    ensures id in MergeAll(ps, n) && MergeAll(ps, n)[id] == ps[i][id]
  {
    if n - 1 == i {
      MergeAllHas(ps, i, id);
    } else {
      MergeAllFirstWins(ps, n - 1, id, i);
    }
  }

  /** A device without presets adds nothing. */
  lemma MergeEmpty(acc: map<int, Json>)
    ensures MergeFirst(acc, map[]) == acc
  {
  }

  /** `for preset_id, preset_name in presets.items()`: each id not yet collected is added. */
  method MergeInto(acc: map<int, Json>, p: map<int, Json>) returns (r: map<int, Json>)
    ensures r == MergeFirst(acc, p)
  {
    r := acc;
    var todo := p.Keys;
    while todo != {}
      invariant todo <= p.Keys
      invariant r.Keys == acc.Keys + (p.Keys - todo)
      invariant forall id :: id in acc ==> r[id] == acc[id]
      invariant forall id :: id in p.Keys - todo && id !in acc ==> r[id] == p[id]
      decreases todo
    {
      Nls.HasElement(todo);
      var id :| id in todo;
      if id !in r {
        r := r[id := p[id]];
      }
      todo := todo - {id};
    }
    var m := MergeFirst(acc, p);
    assert r.Keys == m.Keys;
    assert forall id :: id in r ==> r[id] == m[id];
  }

  /** The NLS text after `_update_preset_nls`: the file as read in text mode,
      rewritten; a failed rewrite leaves it as it was. */
  function NlsAfter(text: string, presets: map<int, Json>): (r: string)
    ensures Nls.PresetLines(presets).None? ==> r == text
    ensures Nls.PresetLines(presets).Some? && Nls.Terminated(Nls.Universal(text)) ==>
              Nls.ReadLines(r) == Nls.WithoutBlock(Nls.ReadLines(Nls.Universal(text)))
                                  + Nls.Block(Nls.PresetLines(presets).value)
  {
    var t := Nls.Universal(text);
    match Nls.RewriteBlock(t, presets)
    case Some(u) =>
      if Nls.Terminated(t) then Nls.RewriteBlockReplaces(t, presets); u else u
    case None => text
  }

  // ---------------------------------------------------------------------
  // The controller node.
  // ---------------------------------------------------------------------

  /** A registry entry: the configuration and the device node made for it. */
  datatype Entry = Entry(config: Config, node: DeviceNode)

  function ConfigsOf(es: seq<Entry>): (cs: seq<Config>)
    ensures |cs| == |es|
    ensures forall k :: 0 <= k < |es| ==> cs[k] == es[k].config
  {
    seq(|es|, k requires 0 <= k < |es| => es[k].config)
  }

  /** What each node holds after the poll, the k-th answered by `os[k]`. */
  function PolledHoldings(hs: seq<Held>, full: bool, os: seq<Outcome>): (r: seq<Held>)
    requires |os| == |hs|
    ensures |r| == |hs|
    ensures Steps(hs, full, os, r)
  {
    if |hs| == 0 then [] else
      var n := |hs| - 1;
      PolledHoldings(hs[..n], full, os[..n]) + [PollStep(hs[n], full, os[n])]
  }

  /** The requests after `sent0` are the polls of the first i entries, in order. */
  predicate SentPolls(sent: seq<Request>, sent0: seq<Request>, es: seq<Entry>, i: nat, endpoint: string) {
    && i <= |es|
    && |sent| == |sent0| + i
    && (forall k :: 0 <= k < |sent0| ==> sent[k] == sent0[k])
    && (forall k :: 0 <= k < i ==> sent[|sent0| + k] == HttpGet(es[k].node.client.Url(endpoint)))
  }

  /** The first i entries hold `want`, the others still hold `before`. */
  ghost predicate PolledUpTo(es: seq<Entry>, i: nat, before: seq<Held>, want: seq<Held>)
    reads set k | 0 <= k < |es| :: es[k].node
    reads set k | 0 <= k < |es| :: es[k].node.client
  {
    && |before| == |es| && |want| == |es|
    && forall k :: 0 <= k < |es| ==> es[k].node.Holding() == if k < i then want[k] else before[k]
  }

  /** `rs[k]` is what a node holding `hs[k]` holds after a poll answered by `os[k]`. */
  predicate Steps(hs: seq<Held>, full: bool, os: seq<Outcome>, rs: seq<Held>) {
    && |os| == |hs| && |rs| == |hs|
    && forall k {:trigger PollStep(hs[k], full, os[k])} :: 0 <= k < |hs| ==> rs[k] == PollStep(hs[k], full, os[k])
  }

  /** Entry k holds the node and the client that `ix` and `cx` map to k, so no two entries share either. */
  ghost predicate Indexed(es: seq<Entry>, ix: map<DeviceNode, nat>, cx: map<Device, nat>) {
    forall k :: 0 <= k < |es| ==>
      es[k].node in ix && ix[es[k].node] == k && es[k].node.client in cx && cx[es[k].node.client] == k
  }

  /** What each node holds: its client's cache, its drivers and its presets. */
  ghost function Holdings(es: seq<Entry>): (hs: seq<Held>)
    reads set k | 0 <= k < |es| :: es[k].node
    reads set k | 0 <= k < |es| :: es[k].node.client
    ensures |hs| == |es|
    ensures forall k :: 0 <= k < |es| ==> hs[k] == es[k].node.Holding()
  {
    if |es| == 0 then [] else
      var n := |es| - 1;
      assert forall k :: 0 <= k < n ==> es[..n][k] == es[k];
      Holdings(es[..n]) + [es[n].node.Holding()]
  }


  /** Entry `e`'s node and client were made from its configuration. */
  predicate Made(e: Entry) {
    && e.node.address == e.config.address && e.node.name == e.config.name
    && e.node.client.host == e.config.ip && e.node.client.port == e.config.port
  }

  /** Entry k is at position k of `ax` under its address, so no two entries share one. */
  predicate Addressed(es: seq<Entry>, ax: map<string, nat>) {
    forall k :: 0 <= k < |es| ==> es[k].config.address in ax && ax[es[k].config.address] == k
  }

  lemma AddressedDistinct(es: seq<Entry>, ax: map<string, nat>)
    requires Addressed(es, ax)
    ensures DistinctAddresses(ConfigsOf(es))
  {
  }

  /**
   * A well-formed registry: keyed by address, one node per entry made from
   * its configuration, each with a client of its own on `net`, and no node
   * or client shared by two entries.
   */
  ghost predicate Registry(es: seq<Entry>, net: Transport, ns: set<DeviceNode>, cs: set<Device>, ix: map<DeviceNode, nat>, cx: map<Device, nat>, ax: map<string, nat>) {
    && Indexed(es, ix, cx)
    && Addressed(es, ax)
    && forall k :: 0 <= k < |es| ==>
         Made(es[k]) && es[k].node.client.net == net && es[k].node in ns && es[k].node.client in cs
  }

  /** A node and client not yet registered, under an address not yet taken, can be appended. */
  lemma RegistryAppend(es: seq<Entry>, net: Transport, ns: set<DeviceNode>, cs: set<Device>, ix: map<DeviceNode, nat>, cx: map<Device, nat>, ax: map<string, nat>, e: Entry)
    requires Registry(es, net, ns, cs, ix, cx, ax) && Made(e) && e.node.client.net == net
    requires e.node !in ix && e.node.client !in cx && !HasAddress(ConfigsOf(es), e.config.address)
    ensures Registry(es + [e], net, ns + {e.node}, cs + {e.node.client}, ix[e.node := |es|], cx[e.node.client := |es|], ax[e.config.address := |es|])
    ensures ConfigsOf(es + [e]) == ConfigsOf(es) + [e.config]
  {
    var r := es + [e];
    assert ConfigsOf(r) == ConfigsOf(es) + [e.config];
    assert forall k :: 0 <= k < |es| ==> r[k] == es[k] && ConfigsOf(es)[k].address != e.config.address;
  }

  /** The positions of `ix` after the one at `i` is deleted: those behind it move up by one. */
  function Unshift<T>(ix: map<T, nat>, i: nat): map<T, nat> {
    map x | x in ix :: if ix[x] > i then ix[x] - 1 else ix[x]
  }

  /** Deleting an entry leaves a well-formed registry. */
  lemma RegistryDelete(es: seq<Entry>, net: Transport, ns: set<DeviceNode>, cs: set<Device>, ix: map<DeviceNode, nat>, cx: map<Device, nat>, ax: map<string, nat>, i: nat)
    requires Registry(es, net, ns, cs, ix, cx, ax) && i < |es|
    ensures Registry(es[..i] + es[i + 1..], net, ns, cs, Unshift(ix, i), Unshift(cx, i), Unshift(ax, i))
    ensures ConfigsOf(es[..i] + es[i + 1..]) == ConfigsOf(es)[..i] + ConfigsOf(es)[i + 1..]
  {
    var r := es[..i] + es[i + 1..];
    DeleteAt(es, r, i);
    DeleteAt(ConfigsOf(es), ConfigsOf(es)[..i] + ConfigsOf(es)[i + 1..], i);
    assert ConfigsOf(r) == ConfigsOf(es)[..i] + ConfigsOf(es)[i + 1..];
  }

  lemma TakeOneMore<T>(s: seq<T>, i: nat)
    requires i < |s|
    ensures s[..i + 1] == s[..i] + [s[i]]
  {
  }

  lemma AppendAssoc<T>(a: seq<T>, b: seq<T>, c: seq<T>)
    ensures a + b + c == a + (b + c)
  {
  }

  /** `es` keeps the entries of `es0`, in front. */
  predicate Keeps(es: seq<Entry>, es0: seq<Entry>) {
    |es0| <= |es| && forall k :: 0 <= k < |es0| ==> es[k] == es0[k]
  }

  /** The wanted device an optional parse result contributes. */
  function Parsed(w: Option<Wanted>): seq<Wanted> {
    if w.Some? then [w.value] else []
  }

  /** What a node holding `h` holds after its client's preset fetch answered by `o`: only the cache changes. */
  function FetchStep(h: Held, o: Outcome): Held {
    h.(cache := AfterGetPresets(h.cache, o))
  }

  /** `rs[k]` is what a node holding `hs[k]` holds after a preset fetch answered by `os[k]`. */
  predicate FetchSteps(hs: seq<Held>, os: seq<Outcome>, rs: seq<Held>) {
    && |os| == |hs| && |rs| == |hs|
    && forall k {:trigger FetchStep(hs[k], os[k])} :: 0 <= k < |hs| ==> rs[k] == FetchStep(hs[k], os[k])
  }

  /** `ps[k]` is what the preset fetch answered by `os[k]` finds. */
  predicate FetchFinds(os: seq<Outcome>, ps: seq<map<int, Json>>) {
    && |ps| == |os|
    && forall k {:trigger PresetsFound(os[k])} :: 0 <= k < |os| ==> ps[k] == PresetsFound(os[k])
  }

  /** What each node holds after the preset fetches, the k-th answered by `os[k]`. */
  function FetchedHoldings(hs: seq<Held>, os: seq<Outcome>): (rs: seq<Held>)
    requires |os| == |hs|
    ensures FetchSteps(hs, os, rs)
  {
    if |hs| == 0 then [] else
      var n := |hs| - 1;
      assert forall k :: 0 <= k < n ==> hs[..n][k] == hs[k] && os[..n][k] == os[k];
      FetchedHoldings(hs[..n], os[..n]) + [FetchStep(hs[n], os[n])]
  }

  /** What each fetch finds, in registry order. */
  function FetchedPresets(os: seq<Outcome>): (ps: seq<map<int, Json>>)
    ensures FetchFinds(os, ps)
  {
    if |os| == 0 then [] else
      var n := |os| - 1;
      FetchFindsSnoc(os, FetchedPresets(os[..n]));
      FetchedPresets(os[..n]) + [PresetsFound(os[n])]
  }

  lemma FetchFindsSnoc(os: seq<Outcome>, ps: seq<map<int, Json>>)
    requires |os| > 0 && FetchFinds(os[..|os| - 1], ps)
    ensures FetchFinds(os, ps + [PresetsFound(os[|os| - 1])])
  {
    var n := |os| - 1;
    var r := ps + [PresetsFound(os[n])];
    forall k | 0 <= k < |os|
      ensures r[k] == PresetsFound(os[k])
    {
      if k < n {
        assert os[..n][k] == os[k];
      }
    }
  }

  /** Every node given `all` as its presets. */
  function Shared(hs: seq<Held>, all: map<int, Json>): (rs: seq<Held>)
    ensures |rs| == |hs|
    ensures forall k :: 0 <= k < |hs| ==> rs[k] == hs[k].(presets := all)
  {
    if |hs| == 0 then [] else
      var n := |hs| - 1;
      Shared(hs[..n], all) + [hs[n].(presets := all)]
  }

  class ControllerNode {
    const net: Transport
    const api: Api
    /** `_devices`, in insertion order. */
    var entries: seq<Entry>
    /** The GV0 driver. */
    var deviceCount: int
    /** Every node and client the registry has held, and the position of each. */
    ghost var nodes: set<DeviceNode>
    ghost var clients: set<Device>
    ghost var nodeIx: map<DeviceNode, nat>
    ghost var clientIx: map<Device, nat>
    ghost var addressIx: map<string, nat>

    function Configs(): seq<Config>
      reads this
    {
      ConfigsOf(entries)
    }

    ghost function Nodes(): set<DeviceNode>
      reads this
    {
      nodes
    }

    ghost function Clients(): set<Device>
      reads this
    {
      clients
    }

    /** A well-formed registry on the shared network, and GV0 counts its entries. */
    ghost predicate Valid()
      reads this`entries, this`deviceCount, this`nodes, this`clients, this`nodeIx, this`clientIx, this`addressIx
    {
      && Registry(entries, net, nodes, clients, nodeIx, clientIx, addressIx)
      && api.net == net
      && deviceCount == |entries|
    }

    /** `__init__` and the API `start` creates: an empty registry. */
    constructor (net: Transport)
      ensures Valid() && fresh(api)
      ensures this.net == net && entries == []
    {
      this.net := net;
      api := new Api(net);
      entries := [];
      nodes, clients := {}, {};
      nodeIx, clientIx, addressIx := map[], map[], map[];
      deviceCount := 0;
    }

    /** `_add_wled_device`: a new node unless its derived address is registered. */
    method AddWledDevice(name: string, ip: string, port: int)
      requires Valid()
      modifies this, net
      ensures Valid() && Keeps(entries, old(entries))
      ensures Configs() == AddConfig(old(Configs()), name, ip, port)
      ensures net.sent == old(net.sent) + NewRequests(old(Configs()), Wanted(name, ip), port)
      ensures |entries| > |old(entries)| ==>
                var n := entries[|old(entries)|].node;
                fresh(n) && fresh(n.client) && n.Started(net.script, |old(net.sent)|)
    {
      var address := AddressOf(name);
      if HasAddress(Configs(), address) {
        return;
      }
      var node := new DeviceNode(address, name, ip, port, net);
      Register(Entry(Config(address, name, ip, port), node));
    }

    /** Appending a new node's entry, counted by GV0. */
    method Register(e: Entry)
      requires Valid() && Made(e) && e.node.client.net == net
      requires e.node !in nodeIx && e.node.client !in clientIx && !HasAddress(Configs(), e.config.address)
      modifies this
      ensures Valid()
      ensures entries == old(entries) + [e] && Configs() == old(Configs()) + [e.config]
    {
      RegistryAppend(entries, net, nodes, clients, nodeIx, clientIx, addressIx, e);
      nodeIx, clientIx := nodeIx[e.node := |entries|], clientIx[e.node.client := |entries|];
      addressIx := addressIx[e.config.address := |entries|];
      nodes, clients := nodes + {e.node}, clients + {e.node.client};
      entries := entries + [e];
      deviceCount := |entries|;
    }

    /** `_remove_wled_device`, then `_update_device_count`: only that address's entry goes. */
    method RemoveWledDevice(address: string)
      requires Valid()
      modifies this
      ensures Valid()
      ensures Configs() == RemoveConfig(old(Configs()), address)
      ensures !HasAddress(old(Configs()), address) ==> entries == old(entries)
      ensures HasAddress(old(Configs()), address) ==>
                var i := AddressIndex(old(Configs()), address);
                entries == old(entries)[..i] + old(entries)[i + 1..]
    {
      if !HasAddress(Configs(), address) {
        RemoveAbsent(Configs(), address);
        return;
      }
      var i := AddressIndex(Configs(), address);
      AddressedDistinct(entries, addressIx);
      RemoveConfigAt(Configs(), i);
      Deregister(i);
    }

    /** Dropping the `i`-th entry, counted by GV0. */
    method Deregister(i: nat)
      requires Valid() && i < |entries|
      modifies this
      ensures Valid()
      ensures entries == old(entries)[..i] + old(entries)[i + 1..]
      ensures Configs() == old(Configs())[..i] + old(Configs())[i + 1..]
    {
      RegistryDelete(entries, net, nodes, clients, nodeIx, clientIx, addressIx, i);
      nodeIx, clientIx, addressIx := Unshift(nodeIx, i), Unshift(clientIx, i), Unshift(addressIx, i);
      entries := entries[..i] + entries[i + 1..];
      deviceCount := |entries|;
    }

    /** After adding `ws` at `port` to the registry `cs0` that sent `sent0` and held `es0`. */
    ghost predicate Added(cs0: seq<Config>, sent0: seq<Request>, es0: seq<Entry>, ws: seq<Wanted>, port: int)
      reads this, net
    {
      && Valid() && Keeps(entries, es0)
      && Configs() == AddAll(cs0, ws, port)
      && net.sent == sent0 + AddRequests(cs0, ws, port)
    }

    /** One more device of a loop that adds devices in turn. */
    method AddNext(w: Option<Wanted>, port: int, ghost cs0: seq<Config>, ghost sent0: seq<Request>, ghost es0: seq<Entry>, ghost ws: seq<Wanted>)
      requires Added(cs0, sent0, es0, ws, port)
      modifies this, net
      ensures Added(cs0, sent0, es0, ws + Parsed(w), port)
    {
      if w.Some? {
        AddAllStep(cs0, ws, w.value, port);
        AddWledDevice(w.value.name, w.value.ip, port);
        AppendAssoc(sent0, AddRequests(cs0, ws, port), NewRequests(AddAll(cs0, ws, port), w.value, port));
        assert ws + Parsed(w) == ws + [w.value];
      } else {
        assert ws + Parsed(w) == ws;
      }
    }

    /** `_parse_devices`: each entry of the configuration string, in order, at port 80. */
    method ParseDevices(devices: string)
      requires Valid()
      modifies this, net
      ensures Valid() && Keeps(entries, old(entries))
      ensures Configs() == AddAll(old(Configs()), ParseConfig(devices), 80)
      ensures net.sent == old(net.sent) + AddRequests(old(Configs()), ParseConfig(devices), 80)
    {
      if devices == "" {
        return;
      }
      var parts := Split(devices, ',');
      ghost var cs0, sent0, es0 := Configs(), net.sent, entries;
      var i := 0;
      while i < |parts|
        invariant i <= |parts|
        invariant Added(cs0, sent0, es0, ParseEntries(parts[..i]), 80)
      {
        ParseEntriesStep(parts[..i], parts[i]);
        TakeOneMore(parts, i);
        AddNext(ParseEntry(parts[i]), 80, cs0, sent0, es0, ParseEntries(parts[..i]));
        i := i + 1;
      }
      assert parts[..i] == parts;
    }

    /** `_poll_devices(full_sync)`: `update_status` on every node, in registry order. */
    method PollDevices(full: bool)
      requires Valid()
      modifies Nodes(), Clients(), net
      ensures SentPolls(net.sent, old(net.sent), entries, |entries|, if full then "/json" else "/json/state")
      ensures Holdings(entries) == PolledHoldings(old(Holdings(entries)), full, Answers(net.script, |old(net.sent)|, |entries|))
    {
      PollEach(entries, full, nodes, clients, nodeIx, clientIx);
    }

    /** The loop of `_poll_devices` over the registry's entries `es`. */
    method PollEach(es: seq<Entry>, full: bool, ghost ns: set<DeviceNode>, ghost cs: set<Device>, ghost ix: map<DeviceNode, nat>, ghost cx: map<Device, nat>)
      requires Indexed(es, ix, cx)
      requires forall k :: 0 <= k < |es| ==> es[k].node.client.net == net && es[k].node in ns && es[k].node.client in cs
      modifies ns, cs, net
      ensures SentPolls(net.sent, old(net.sent), es, |es|, if full then "/json" else "/json/state")
      ensures Holdings(es) == PolledHoldings(old(Holdings(es)), full, Answers(net.script, |old(net.sent)|, |es|))
    {
      var endpoint := if full then "/json" else "/json/state";
      ghost var sent0 := net.sent;
      ghost var before := Holdings(es);
      ghost var outs := Answers(net.script, |sent0|, |es|);
      ghost var want := PolledHoldings(before, full, outs);
      var i := 0;
      while i < |es|
        invariant 0 <= i <= |es|
        invariant SentPolls(net.sent, sent0, es, i, endpoint)
        invariant PolledUpTo(es, i, before, want)
      {
        PollEntry(es, i, full, before, outs, want, ix, cx, sent0);
        i := i + 1;
      }
    }

    /** One pass of the loop in `_poll_devices`: only the i-th node and its client change. */
    method PollEntry(es: seq<Entry>, i: nat, full: bool, ghost hs: seq<Held>, ghost os: seq<Outcome>, ghost want: seq<Held>, ghost ix: map<DeviceNode, nat>, ghost cx: map<Device, nat>, ghost sent0: seq<Request>)
      requires i < |es| == |hs| && Indexed(es, ix, cx) && es[i].node.client.net == net
      requires SentPolls(net.sent, sent0, es, i, if full then "/json" else "/json/state")
      requires PolledUpTo(es, i, hs, want) && os == Answers(net.script, |sent0|, |es|) && Steps(hs, full, os, want)
      modifies es[i].node, es[i].node.client, net
      ensures SentPolls(net.sent, sent0, es, i + 1, if full then "/json" else "/json/state")
      ensures PolledUpTo(es, i + 1, hs, want)
    {
      PollOne(es[i].node, full, i, hs, os, want);
    }

    /** `update_status(full_sync)` on one node, whose poll is the i-th of `Steps`. */
    static method PollOne(n: DeviceNode, full: bool, i: nat, ghost hs: seq<Held>, ghost os: seq<Outcome>, ghost want: seq<Held>)
      requires i < |hs| && n.Holding() == hs[i] && Steps(hs, full, os, want) && n.client.net.Next() == os[i]
      modifies n, n.client, n.client.net
      ensures n.client.net.sent == old(n.client.net.sent) + [HttpGet(n.client.Url(if full then "/json" else "/json/state"))]
      ensures n.Holding() == want[i]
    {
      n.UpdateStatus(full);
    }

    /** `poll`: a short poll refreshes the state, a long poll everything, anything else nothing. */
    method Poll(polltype: string)
      requires Valid()
      modifies Nodes(), Clients(), net
      ensures polltype == "shortPoll" ==>
                && SentPolls(net.sent, old(net.sent), entries, |entries|, "/json/state")
                && Holdings(entries) == PolledHoldings(old(Holdings(entries)), false, Answers(net.script, |old(net.sent)|, |entries|))
      ensures polltype == "longPoll" ==>
                && SentPolls(net.sent, old(net.sent), entries, |entries|, "/json")
                && Holdings(entries) == PolledHoldings(old(Holdings(entries)), true, Answers(net.script, |old(net.sent)|, |entries|))
      ensures polltype != "shortPoll" && polltype != "longPoll" ==> unchanged(Nodes(), Clients(), net)
    {
      if polltype == "shortPoll" {
        PollDevices(false);
      } else if polltype == "longPoll" {
        PollDevices(true);
      }
    }

    /** `query`: a full refresh of every node. */
    method Query()
      requires Valid()
      modifies Nodes(), Clients(), net
      ensures SentPolls(net.sent, old(net.sent), entries, |entries|, "/json")
      ensures Holdings(entries) == PolledHoldings(old(Holdings(entries)), true, Answers(net.script, |old(net.sent)|, |entries|))
    {
      PollDevices(true);
    }

    /** `discover`: probe the local /24, then add the devices found, in the order found. */
    method Discover(localIp: Option<string>)
      requires Valid()
      modifies this, net
      ensures Valid() && Keeps(entries, old(entries))
      ensures var ws := DiscoveredWanted(Probed(localIp, net.script, |old(net.sent)|));
              && Configs() == AddAll(old(Configs()), ws, 80)
              && net.sent == old(net.sent) + ProbeSent(localIp) + AddRequests(old(Configs()), ws, 80)
    {
      var found := api.Discover(localIp);
      AddDiscovered(found);
    }

    /**
     * The loop of `discover`: each found device under its normalised name at
     * port 80, stopping at the first whose name is not a string.
     */
    method AddDiscovered(found: seq<Discovered>)
      requires Valid()
      modifies this, net
      ensures Valid() && Keeps(entries, old(entries))
      ensures Configs() == AddAll(old(Configs()), DiscoveredWanted(found), 80)
      ensures net.sent == old(net.sent) + AddRequests(old(Configs()), DiscoveredWanted(found), 80)
    {
      ghost var cs0, sent0, es0 := Configs(), net.sent, entries;
      AddLeading(found, cs0, sent0, es0);
    }

    /** The loop of `discover`, from the registry `cs0` that had sent `sent0` and held `es0`. */
    method AddLeading(found: seq<Discovered>, ghost cs0: seq<Config>, ghost sent0: seq<Request>, ghost es0: seq<Entry>)
      requires Added(cs0, sent0, es0, [], 80)
      modifies this, net
      ensures Added(cs0, sent0, es0, DiscoveredWanted(found), 80)
    {
      var i := 0;
      while i < |found| && found[i].name.Str?
        invariant i <= Leading(found)
        invariant Added(cs0, sent0, es0, NamedWanted(found, i), 80)
      {
        AddFound(found, i, cs0, sent0, es0);
        i := i + 1;
      }
      assert NamedWanted(found, i) == DiscoveredWanted(found);
    }

    /** One pass of the loop of `discover`: the i-th found device is added. */
    method AddFound(found: seq<Discovered>, i: nat, ghost cs0: seq<Config>, ghost sent0: seq<Request>, ghost es0: seq<Entry>)
      requires i < Leading(found)
      requires Added(cs0, sent0, es0, NamedWanted(found, i), 80)
      modifies this, net
      ensures Added(cs0, sent0, es0, NamedWanted(found, i + 1), 80)
    {
      var w := Wanted(DiscoveredName(found[i]).value, found[i].ip);
      assert NamedWanted(found, i + 1) == NamedWanted(found, i) + Parsed(Some(w));
      AddNext(Some(w), 80, cs0, sent0, es0, NamedWanted(found, i));
    }

    /**
     * `rebuild_presets`: every node's presets fetched in registry order and
     * merged, the first device to name an id winning; when any were found,
     * the NLS text is rewritten and every node is given them all. The NLS
     * file is read as `text` (empty when it does not exist) and written back
     * as `updated`.
     */
    method RebuildPresets(text: string) returns (updated: string)
      requires Valid()
      modifies Nodes(), Clients(), net
      ensures Valid() && entries == old(entries)
      ensures SentPolls(net.sent, old(net.sent), entries, |entries|, "/presets.json")
      ensures var os := Answers(net.script, |old(net.sent)|, |entries|);
              var hs := FetchedHoldings(old(Holdings(entries)), os);
              var all := MergeAll(FetchedPresets(os), |entries|);
              if |all| > 0 then Holdings(entries) == Shared(hs, all) && updated == NlsAfter(text, all)
              else Holdings(entries) == hs && updated == text
    {
      var all := CollectPresets(entries, clients, nodeIx, clientIx);
      SharePresets(all);
      updated := if |all| > 0 then NlsAfter(text, all) else text;
    }

    /** The end of `rebuild_presets`: presets found are given to every node. */
    method SharePresets(all: map<int, Json>)
      requires Valid()
      modifies Nodes()
      ensures Holdings(entries) == if |all| > 0 then Shared(old(Holdings(entries)), all) else old(Holdings(entries))
    {
      if |all| > 0 {
        ShareEach(entries, all, nodes, nodeIx, clientIx);
      }
    }

    /** The collecting loop of `rebuild_presets` over the registry's entries `es`. */
    method CollectPresets(es: seq<Entry>, ghost cs: set<Device>, ghost ix: map<DeviceNode, nat>, ghost cx: map<Device, nat>) returns (all: map<int, Json>)
      requires Indexed(es, ix, cx)
      requires forall k :: 0 <= k < |es| ==> es[k].node.client.net == net && es[k].node.client in cs
      modifies cs, net
      ensures SentPolls(net.sent, old(net.sent), es, |es|, "/presets.json")
      ensures var os := Answers(net.script, |old(net.sent)|, |es|);
              && Holdings(es) == FetchedHoldings(old(Holdings(es)), os)
              && all == MergeAll(FetchedPresets(os), |es|)
    {
      ghost var sent0 := net.sent;
      ghost var before := Holdings(es);
      ghost var outs := Answers(net.script, |sent0|, |es|);
      ghost var want := FetchedHoldings(before, outs);
      ghost var ps := FetchedPresets(outs);
      all := map[];
      var i := 0;
      while i < |es|
        invariant 0 <= i <= |es|
        invariant SentPolls(net.sent, sent0, es, i, "/presets.json")
        invariant PolledUpTo(es, i, before, want)
        invariant all == MergeAll(ps, i)
      {
        all := FetchEntry(es, i, all, before, outs, want, ps, ix, cx, sent0);
        i := i + 1;
      }
    }

    /** One pass of the collecting loop: only the i-th client changes, and what it finds is merged into `acc`. */
    method FetchEntry(es: seq<Entry>, i: nat, acc: map<int, Json>, ghost hs: seq<Held>, ghost os: seq<Outcome>, ghost want: seq<Held>, ghost ps: seq<map<int, Json>>, ghost ix: map<DeviceNode, nat>, ghost cx: map<Device, nat>, ghost sent0: seq<Request>) returns (r: map<int, Json>)
      requires i < |es| == |hs| && Indexed(es, ix, cx) && es[i].node.client.net == net
      requires SentPolls(net.sent, sent0, es, i, "/presets.json")
      requires PolledUpTo(es, i, hs, want) && os == Answers(net.script, |sent0|, |es|) && FetchSteps(hs, os, want) && FetchFinds(os, ps)
      requires acc == MergeAll(ps, i)
      modifies es[i].node.client, net
      ensures SentPolls(net.sent, sent0, es, i + 1, "/presets.json")
      ensures PolledUpTo(es, i + 1, hs, want)
      ensures r == MergeAll(ps, i + 1)
    {
      var found := FetchOne(es[i].node, i, hs, os, want, ps);
      r := MergeStep(acc, found, ps, i);
    }

    /** The merge in the collecting loop: a device that found no presets adds nothing. */
    static method MergeStep(acc: map<int, Json>, found: map<int, Json>, ghost ps: seq<map<int, Json>>, i: nat) returns (r: map<int, Json>)
      requires i < |ps| && acc == MergeAll(ps, i) && found == ps[i]
      ensures r == MergeAll(ps, i + 1)
    {
      if |found| > 0 {
        r := MergeInto(acc, found);
      } else {
        r := acc;
        MergeEmpty(acc);
      }
    }

    /** `node._device.get_presets()` on one node, whose fetch is the i-th of `FetchSteps` and `FetchFinds`. */
    static method FetchOne(n: DeviceNode, i: nat, ghost hs: seq<Held>, ghost os: seq<Outcome>, ghost want: seq<Held>, ghost ps: seq<map<int, Json>>) returns (found: map<int, Json>)
      requires i < |hs| && n.Holding() == hs[i] && FetchSteps(hs, os, want) && FetchFinds(os, ps) && n.client.net.Next() == os[i]
      modifies n.client, n.client.net
      ensures n.client.net.sent == old(n.client.net.sent) + [HttpGet(n.client.Url("/presets.json"))]
      ensures n.Holding() == want[i] && found == ps[i]
    {
      found := n.client.GetPresets();
      assert want[i] == FetchStep(hs[i], os[i]) && ps[i] == PresetsFound(os[i]);
    }

    /** The sharing loop of `rebuild_presets`: every node is given `all`. */
    method ShareEach(es: seq<Entry>, all: map<int, Json>, ghost ns: set<DeviceNode>, ghost ix: map<DeviceNode, nat>, ghost cx: map<Device, nat>)
      requires Indexed(es, ix, cx)
      requires forall k :: 0 <= k < |es| ==> es[k].node in ns
      modifies ns
      ensures Holdings(es) == Shared(old(Holdings(es)), all)
    {
      ghost var before := Holdings(es);
      ghost var want := Shared(before, all);
      var i := 0;
      while i < |es|
        invariant 0 <= i <= |es|
        invariant PolledUpTo(es, i, before, want)
      {
        ShareEntry(es, i, all, before, want, ix, cx);
        i := i + 1;
      }
    }

    /** `node._available_presets = all_presets` for the i-th node. */
    static method ShareEntry(es: seq<Entry>, i: nat, all: map<int, Json>, ghost hs: seq<Held>, ghost want: seq<Held>, ghost ix: map<DeviceNode, nat>, ghost cx: map<Device, nat>)
      requires i < |es| && Indexed(es, ix, cx) && PolledUpTo(es, i, hs, want) && want == Shared(hs, all)
      modifies es[i].node
      ensures PolledUpTo(es, i + 1, hs, want)
    {
      es[i].node.availablePresets := all;
    }
  }
}
