/** Being registered with BlueZ: gained by an answer, lost with bluetoothd, and asked for again when it returns. */
module Registration {
  import opened Basics
  import opened Environment
  import opened States
  import opened Watches
  import opened PumpModel
  import opened ProviderModel
  import opened Daemon
  import opened Reconnection

  // -------------------------------------------------------------------------
  // Only the answer and the loss of bluetoothd matter
  // -------------------------------------------------------------------------

  lemma {:induction false} FeedRegistered(mac: string, v: ProviderState, states: seq<State>, w: World)
    ensures FeedProvider(mac, v, states, w).0.registered == v.registered
    decreases states
  {
    if states != [] {
      PublishRegistered(mac, v, states[0], NextReply(w));
      FeedRegistered(mac, ProviderModel.Publish(mac, v, states[0], NextReply(w)), states[1..], AfterReply(w));
    }
  }

  lemma PublishRegistered(mac: string, v: ProviderState, s: State, reply: BusReply)
    ensures ProviderModel.Publish(mac, v, s, reply).registered == v.registered
  {
  }

  lemma DeliverRegistered(d: DaemonState, p: PumpState, w: World)
    ensures Deliver(d, p, w).provider.registered == d.provider.registered
  {
    FeedRegistered(Upper(d.mac), d.provider, Fresh(d.pump.published, p.published), w);
  }

  lemma NoticeRegistered(d: DaemonState, v: WatchState)
    ensures Notice(d, v).provider.registered == d.provider.registered
  {
    if v.calls != [] {
      var call := v.calls[|v.calls| - 1];
      var (p, w) := OnBluez(d.mac, d.pump, d.w, call.connected, call.path);
      DeliverRegistered(d.(watch := Some(v)), p, w);
    }
  }

  lemma HandleRegistered(d: DaemonState, o: Occurrence)
    ensures Handle(d, o).provider.registered <==>
            o == Registered(true) || (d.provider.registered && !o.ProviderDown?)
  {
    if o.TickTimer? {
      var (p, w) := Tick(d.mac, d.pump, d.w);
      DeliverRegistered(d, p, w);
    } else if o.RetryTimer? {
      var (p, w) := RetryFires(d.mac, d.pump, d.w, Here(d));
      DeliverRegistered(d, p, w);
    } else if !OnlyAside(o) && d.watch.Some? {
      NoticeRegistered(d, WatchMove(d, o));
    }
  }

  // -------------------------------------------------------------------------
  // Whole runs
  // -------------------------------------------------------------------------

  predicate AnsweredAt(os: seq<Occurrence>, i: int) {
    0 <= i < |os| && os[i] == Registered(true) && forall j :: i < j < |os| ==> !os[j].ProviderDown?
  }

  /** Some registration was granted, and bluetoothd has not gone away since. */
  predicate AnsweredSince(os: seq<Occurrence>) {
    exists i :: 0 <= i < |os| && AnsweredAt(os, i)
  }

  lemma AnsweredLast(os: seq<Occurrence>, o: Occurrence)
    ensures AnsweredSince(os + [o]) <==> o == Registered(true) || (AnsweredSince(os) && !o.ProviderDown?)
  {
    var more := os + [o];
    forall i | 0 <= i < |os|
      ensures AnsweredAt(more, i) <==> AnsweredAt(os, i) && !o.ProviderDown?
    {
      assert more[i] == os[i] && more[|os|] == o;
      assert AnsweredAt(more, i) ==> forall j :: i < j < |os| ==> os[j] == more[j] && !more[j].ProviderDown?;
    }
    assert AnsweredAt(more, |os|) <==> o == Registered(true);
  }

  lemma {:induction false} LossForgets(os: seq<Occurrence>, more: seq<Occurrence>)
    requires Registered(true) !in more
    ensures !AnsweredSince(os + [ProviderDown] + more)
    decreases |more|
  {
    var lost := os + [ProviderDown];
    if more == [] {
      AnsweredLast(os, ProviderDown);
      assert lost + more == lost;
    } else {
      var front, o := more[..|more| - 1], more[|more| - 1];
      assert lost + more == lost + front + [o];
      LossForgets(os, front);
      AnsweredLast(lost + front, o);
    }
  }

  lemma {:induction false} RunRegistered(d: DaemonState, os: seq<Occurrence>)
    requires !d.provider.registered
    ensures Daemon.Run(d, os).provider.registered <==> AnsweredSince(os)
    decreases |os|
  {
    if os != [] {
      var front, o := os[..|os| - 1], os[|os| - 1];
      assert front + [o] == os;
      RunRegistered(d, front);
      RunLast(d, front, o);
      HandleRegistered(Daemon.Run(d, front), o);
      AnsweredLast(front, o);
    }
  }

  /** Between any two callbacks the provider is registered exactly when a registration was granted and bluetoothd has
      not gone away since. */
  lemma RegisteredExactly(mac: string, w: World, watched: bool, reply: Option<seq<BusObject>>, os: seq<Occurrence>)
    ensures Daemon.Run(Start(mac, w, watched, reply), os).provider.registered <==> AnsweredSince(os)
  {
    StartUnregistered(mac, w, watched, reply);
    RunRegistered(Start(mac, w, watched, reply), os);
  }

  /** The loss of bluetoothd takes everything the provider had from it. */
  lemma LossClears(d: DaemonState)
    requires Good(d)
    ensures var v := Handle(d, ProviderDown).provider;
            !v.registered && !v.exported && v.adapter == "" && v.device == "" && Replica(v.signals).None?
  {
    VanishedInv(d.provider);
  }

  /** After the loss of bluetoothd nothing is registered or announced, and until a new registration is granted every
      return of bluetoothd with a manager makes the provider ask the first one. */
  lemma AsksAgain(mac: string, w: World, watched: bool, reply: Option<seq<BusObject>>, os: seq<Occurrence>,
                  more: seq<Occurrence>, objects: seq<BusObject>, k: nat)
    requires w.log == []
    requires Registered(true) !in more && IsFirstManager(objects, k)
    ensures var d := Daemon.Run(Start(mac, w, watched, reply), os + [ProviderDown] + more);
            && !d.provider.registered && !d.provider.exported
            && Asks(d.provider, Some(objects)) == Some(objects[k].path)
            && Handle(d, ProviderUp(Some(objects))).provider.adapter == objects[k].path
  {
    var all := os + [ProviderDown] + more;
    RegisteredExactly(mac, w, watched, reply, all);
    LossForgets(os, more);
    StartGood(mac, w, watched, reply);
    RunKeeps(Start(mac, w, watched, reply), all);
    FindAdapterIsFirst(objects);
  }
}
