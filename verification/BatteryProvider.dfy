/** The provider BlueZ sees, fields updated in place. */
module Providers {
  import opened Basics
  import opened Environment
  import opened States
  import opened Watches
  import opened ProviderModel

  class BatteryProvider {
    const mac: string
    var adapter: string
    var device: string
    var registered: bool
    var exported: bool
    var percentage: byte
    var source: string
    var signals: seq<Signal>

    function View(): ProviderState
      reads this
    {
      ProviderState(adapter, device, registered, exported, percentage, source, signals)
    }

    constructor (mac: string)
      ensures this.mac == Upper(mac) && View() == NEW_PROVIDER
    {
      this.mac := Upper(mac);
      adapter, device, registered, exported := "", "", false, false;
      percentage, source, signals := 0, "", [];
    }

    method DoResolvePaths(reply: Option<seq<BusObject>>) returns (ok: bool)
      modifies this`adapter, this`device
      ensures View() == ResolvePaths(mac, old(View()), reply)
      ensures ok <==> reply.Some? && adapter != ""
    {
      if reply.None? { return false; }
      var objects := reply.value;
      adapter, device := "", "";
      for i := 0 to |objects|
        invariant FindAdapter(objects) == if adapter != "" then adapter else FindAdapter(objects[i..])
        invariant FindDevice(mac, objects) == if device != "" then device else FindDevice(mac, objects[i..])
      {
        var o := objects[i];
        assert objects[i..][1..] == objects[i + 1..];
        if adapter == "" && o.manager { adapter := o.path; }
        if device == "" && Matches(mac, o) { device := o.path; }
      }
      ok := adapter != "";
    }

    /** `ask` says whether RegisterBatteryProvider is called; its answer comes later. */
    method OnBluezAppeared(reply: Option<seq<BusObject>>) returns (ask: bool)
      modifies this`adapter, this`device
      ensures View() == Appeared(mac, old(View()), reply)
      ensures ask <==> Asks(old(View()), reply).Some?
      ensures ask ==> Asks(old(View()), reply) == Some(adapter)
    {
      if registered { return false; }
      ask := DoResolvePaths(reply);
    }

    method OnRegisterDone(ok: bool)
      modifies this`registered
      ensures View() == RegisterDone(old(View()), ok)
    {
      if ok { registered := true; }
    }

    method OnBluezVanished()
      modifies this
      ensures View() == Vanished(old(View()))
    {
      registered, adapter, device, exported := false, "", "", false;
      signals := signals + [Forgotten];
    }

    method DerivePercentage(s: State) returns (best: Option<byte>)
      ensures best == Percentage(s)
    {
      best := None;
      var keys := ["left", "right"];
      for i := 0 to 2
        invariant best == if i == 0 then None else if i == 1 then LevelOf(s, "left") else Percentage(s)
      {
        if keys[i] in s.components {
          var level := s.components[keys[i]].level;
          if level.Some? && (best.None? || level.value < best.value) { best := level; }
        }
      }
    }

    method DeriveSource(s: State) returns (text: string)
      ensures text == SourceText(Fields(s))
    {
      text := Describe(LABELS, KEYS, s, Fields(s));
    }

    static method Describe(labels: seq<string>, keys: seq<string>, s: State, ghost fields: seq<Field>)
      returns (text: string)
      requires |labels| == |keys| == |fields|
      requires forall i :: 0 <= i < |keys| ==> fields[i] == FieldOf(s, keys[i])
      ensures text == "AAP at connect" + FieldsText(" -- ", labels, fields)
    {
      text := "AAP at connect";
      var sep := " -- ";
      for i := 0 to |keys|
        invariant "AAP at connect" + FieldsText(" -- ", labels, fields)
               == text + FieldsText(sep, labels[i..], fields[i..])
      {
        assert labels[i..][1..] == labels[i + 1..] && fields[i..][1..] == fields[i + 1..];
        if keys[i] in s.components {
          var level := s.components[keys[i]].level;
          var item := sep + labels[i] + " " + (if level.Some? then Decimal(level.value) + "%" else "--");
          assert item == sep + labels[i] + " " + FieldText(fields[i]);
          Regroup(text, item, FieldsText(", ", labels[i + 1..], fields[i + 1..]));
          text := text + item;
          sep := ", ";
        }
      }
    }

    method DoAddObject(exportable: bool)
      modifies this`exported, this`signals
      ensures View() == AddObject(old(View()), exportable)
    {
      if exported { return; }
      if !exportable { return; }
      signals := signals + [Added(Props(device, percentage, source))];
      exported := true;
    }

    method DoRemoveObject()
      modifies this`exported, this`signals
      ensures View() == RemoveObject(old(View()))
    {
      if !exported { return; }
      signals := signals + [Removed];
      exported := false;
    }

    method DoPublish(s: State, reply: BusReply)
      modifies this
      ensures View() == Publish(mac, old(View()), s, reply)
    {
      if !registered { return; }
      if device == "" {
        var _ := DoResolvePaths(reply.objects);
      }
      var pct := DerivePercentage(s);
      if !s.channelOpen || pct.None? || device == "" {
        DoRemoveObject();
        return;
      }
      var src := DeriveSource(s);
      var changed := pct.value != percentage || src != source;
      percentage, source := pct.value, src;
      if !exported {
        DoAddObject(reply.exported);
        return;
      }
      if changed {
        signals := signals + [Changed(Props(device, percentage, source))];
      }
    }
  }
}
