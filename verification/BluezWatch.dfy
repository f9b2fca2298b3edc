/** The watch on BlueZ: a cache of whether, and where, the device is connected to this host. */
module Watches {
  import opened Basics
  import opened Environment

  const RESCAN_DEBOUNCE_MS: nat := 200

  function UpperChar(c: char): char {
    if 'a' <= c <= 'z' then (c as int - 32) as char else c
  }

  function Upper(s: string): (r: string)
    ensures |r| == |s|
  {
    seq(|s|, i requires 0 <= i < |s| => UpperChar(s[i]))
  }

  datatype Call = Call(connected: bool, path: string)

  /** `timer` is the due time of the pending rescan; `calls` is every callback made so far. */
  datatype WatchState = WatchState(connected: bool, path: string, primed: bool, timer: Option<int>, calls: seq<Call>)

  const UNPRIMED := WatchState(false, "", false, None, [])

  const NOWHERE := Call(false, "")

  function Update(v: WatchState, connected: bool, path: string): WatchState {
    var changed := !v.primed || connected != v.connected || path != v.path;
    WatchState(connected, path, true, v.timer, if changed then v.calls + [Call(connected, path)] else v.calls)
  }

  predicate Matches(mac: string, o: BusObject) {
    o.device.Some? && Upper(o.device.value.address) == mac
  }

  /** A device without the Connected property counts as away. */
  function StatusOf(o: BusObject): Call
    requires o.device.Some?
  {
    Call(o.device.value.connected == Some(true), o.path)
  }

  /** The scan of a GetManagedObjects reply, stopping at the first object that gives a path. */
  function Scan(mac: string, objects: seq<BusObject>, found: Call): Call {
    if objects == [] then found
    else
      var now := if Matches(mac, objects[0]) then StatusOf(objects[0]) else found;
      if now.path != "" then now else Scan(mac, objects[1..], now)
  }

  function Rescan(mac: string, v: WatchState, reply: Option<seq<BusObject>>): WatchState {
    var found := if reply.None? then NOWHERE else Scan(mac, reply.value, NOWHERE);
    Update(v, found.connected, found.path)
  }

  function RescanSoon(v: WatchState, now: int): WatchState {
    v.(timer := Some(now + RESCAN_DEBOUNCE_MS))
  }

  function RescanFires(mac: string, v: WatchState, reply: Option<seq<BusObject>>): WatchState {
    Rescan(mac, v.(timer := None), reply)
  }

  function PropsChanged(v: WatchState, path: string, connected: Option<bool>): WatchState {
    if v.path == "" || v.path != path || connected.None? then v else Update(v, connected.value, v.path)
  }

  class BluezWatch {
    const mac: string
    var connected: bool
    var path: string
    var primed: bool
    var rescanTimer: Option<int>
    var calls: seq<Call>

    function View(): WatchState
      reads this
    {
      WatchState(connected, path, primed, rescanTimer, calls)
    }

    constructor (mac: string)
      ensures this.mac == Upper(mac) && View() == UNPRIMED
    {
      this.mac := Upper(mac);
      connected, path, primed, rescanTimer, calls := false, "", false, None, [];
    }

    method DoUpdate(connected: bool, path: string)
      modifies this
      ensures View() == Update(old(View()), connected, path)
    {
      var changed := !primed || connected != this.connected || path != this.path;
      this.connected, this.path, primed := connected, path, true;
      if changed {
        calls := calls + [Call(connected, path)];
      }
    }

    method DoRescan(reply: Option<seq<BusObject>>)
      modifies this
      ensures View() == Rescan(mac, old(View()), reply)
    {
      if reply.None? {
        DoUpdate(false, "");
        return;
      }
      var objects := reply.value;
      var foundConnected, foundPath := false, "";
      var i := 0;
      while i < |objects| && foundPath == ""
        invariant i <= |objects|
        invariant Scan(mac, objects, NOWHERE) ==
                  if foundPath == "" then Scan(mac, objects[i..], Call(foundConnected, foundPath))
                  else Call(foundConnected, foundPath)
      {
        var o := objects[i];
        assert objects[i..][1..] == objects[i + 1..];
        if o.device.Some? && Upper(o.device.value.address) == mac {
          foundPath := o.path;
          foundConnected := o.device.value.connected == Some(true);
        }
        i := i + 1;
      }
      DoUpdate(foundConnected, foundPath);
    }

    /** Every signal of a burst pushes the scan back. */
    method DoRescanSoon(now: int)
      modifies this
      ensures View() == RescanSoon(old(View()), now)
    {
      rescanTimer := Some(now + RESCAN_DEBOUNCE_MS);
    }

    method OnRescanTimer(reply: Option<seq<BusObject>>)
      modifies this
      ensures View() == RescanFires(mac, old(View()), reply)
    {
      rescanTimer := None;
      DoRescan(reply);
    }

    method OnPropsChanged(objectPath: string, connected: Option<bool>)
      modifies this
      ensures View() == PropsChanged(old(View()), objectPath, connected)
    {
      if path == "" || path != objectPath { return; }
      if connected.Some? {
        DoUpdate(connected.value, path);
      }
    }

    method OnInterfacesChanged(now: int)
      modifies this
      ensures View() == RescanSoon(old(View()), now)
    {
      DoRescanSoon(now);
    }

    method OnBluezAppeared(reply: Option<seq<BusObject>>)
      modifies this
      ensures View() == Rescan(mac, old(View()), reply)
    {
      DoRescan(reply);
    }

    method OnBluezVanished()
      modifies this
      ensures View() == Update(old(View()), false, "")
    {
      DoUpdate(false, "");
    }
  }

  // -------------------------------------------------------------------------
  // The scan is first-match lookup
  // -------------------------------------------------------------------------

  /** The first object in the tree that carries the device, by position. */
  function FirstMatch(mac: string, objects: seq<BusObject>): Option<nat> {
    if objects == [] then None
    else if Matches(mac, objects[0]) then Some(0)
    else match FirstMatch(mac, objects[1..]) case None => None case Some(i) => Some(i + 1)
  }

  lemma {:induction false} FirstMatchIsFirst(mac: string, objects: seq<BusObject>)
    ensures match FirstMatch(mac, objects)
            case None => forall i :: 0 <= i < |objects| ==> !Matches(mac, objects[i])
            case Some(k) =>
              k < |objects| && Matches(mac, objects[k]) && forall i :: 0 <= i < k ==> !Matches(mac, objects[i])
  {
    if objects != [] && !Matches(mac, objects[0]) {
      FirstMatchIsFirst(mac, objects[1..]);
      forall i | 1 <= i < |objects|
        ensures objects[i] == objects[1..][i - 1]
      {
      }
    }
  }

  predicate PathsNamed(objects: seq<BusObject>) {
    forall i :: 0 <= i < |objects| ==> objects[i].path != ""
  }

  /** Where the device is according to the tree, by first match. */
  function Lookup(mac: string, objects: seq<BusObject>): Call {
    FirstMatchIsFirst(mac, objects);
    match FirstMatch(mac, objects)
    case None => NOWHERE
    case Some(k) => StatusOf(objects[k])
  }

  lemma {:induction false} ScanIsLookup(mac: string, objects: seq<BusObject>)
    requires PathsNamed(objects)
    ensures Scan(mac, objects, NOWHERE) == Lookup(mac, objects)
  {
    if objects != [] && !Matches(mac, objects[0]) {
      forall i | 0 <= i < |objects[1..]|
        ensures objects[1..][i].path != ""
      {
        assert objects[1..][i] == objects[i + 1];
      }
      ScanIsLookup(mac, objects[1..]);
      FirstMatchIsFirst(mac, objects[1..]);
    }
  }

  // -------------------------------------------------------------------------
  // The scan, in the device's own terms
  // -------------------------------------------------------------------------

  predicate SameLetter(x: char, y: char) {
    x == y || ('a' <= x <= 'z' && 'A' <= y <= 'Z' && x as int == y as int + 32)
      || ('A' <= x <= 'Z' && 'a' <= y <= 'z' && y as int == x as int + 32)
  }

  /** Equal but for the case of ASCII letters. */
  predicate SameAddress(a: string, b: string) {
    |a| == |b| && forall i :: 0 <= i < |a| ==> SameLetter(a[i], b[i])
  }

  lemma AddressesMatch(a: string, b: string)
    ensures Upper(a) == Upper(b) <==> SameAddress(a, b)
  {
    if Upper(a) == Upper(b) {
      forall i | 0 <= i < |a|
        ensures SameLetter(a[i], b[i])
      {
        assert Upper(a)[i] == Upper(b)[i];
      }
    }
    if SameAddress(a, b) {
      forall i | 0 <= i < |a|
        ensures Upper(a)[i] == Upper(b)[i]
      {
        assert SameLetter(a[i], b[i]);
      }
    }
  }

  predicate Carrier(mac: string, o: BusObject) {
    o.device.Some? && SameAddress(o.device.value.address, mac)
  }

  predicate FirstCarrier(mac: string, objects: seq<BusObject>, k: int) {
    0 <= k < |objects| && Carrier(mac, objects[k]) && forall i :: 0 <= i < k ==> !Carrier(mac, objects[i])
  }

  /** The lookup gives the path of the first object with our address, in whatever case, and whether its Connected is
      there and true; without one, nowhere. */
  lemma LookupReads(mac: string, objects: seq<BusObject>)
    ensures forall k :: FirstCarrier(mac, objects, k) ==>
              Lookup(Upper(mac), objects) == Call(objects[k].device.value.connected == Some(true), objects[k].path)
    ensures (forall k :: !FirstCarrier(mac, objects, k)) ==> Lookup(Upper(mac), objects) == Call(false, "")
  {
    forall i | 0 <= i < |objects|
      ensures Matches(Upper(mac), objects[i]) <==> Carrier(mac, objects[i])
    {
      if objects[i].device.Some? {
        AddressesMatch(objects[i].device.value.address, mac);
      }
    }
    FirstMatchIsFirst(Upper(mac), objects);
    var m := FirstMatch(Upper(mac), objects);
    if m.Some? {
      assert FirstCarrier(mac, objects, m.value);
    }
  }

  // -------------------------------------------------------------------------
  // The callbacks
  // -------------------------------------------------------------------------

  /** No two consecutive callbacks are equal, and the last one is the cached value. */
  predicate CallsFresh(v: WatchState) {
    && (forall i :: 0 < i < |v.calls| ==> v.calls[i - 1] != v.calls[i])
    && (v.primed ==> v.calls != [] && v.calls[|v.calls| - 1] == Call(v.connected, v.path))
    && (!v.primed ==> v.calls == [])
  }

  lemma UpdateFresh(v: WatchState, connected: bool, path: string)
    requires CallsFresh(v)
    ensures CallsFresh(Update(v, connected, path))
  {
  }
}
