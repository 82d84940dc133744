/** IPACM_ConntrackListener as an object around NatApp, proved against the state functions. */
module ConntrackObjects {
  import opened Spec = NatApp
  import opened Conntrack
  import NatObjects

  class ConntrackListener {
    const app: NatObjects.NatApp
    var wanUp: bool
    var cfg: Config

    ghost function View(): Listener
      reads this, app, app.cache, app.temp, app.pwr, app.hw
    {
      Listener(app.View(), wanUp, cfg)
    }

    constructor (app: NatObjects.NatApp, cfg: Config)
      ensures this.app == app && View() == Listener(app.View(), false, cfg)
    {
      this.app, this.wanUp, this.cfg := app, false, cfg;
    }

    method TriggerWANUp(ip: Ip, isSta: bool)
      requires app.Valid() && !wanUp
      modifies this, app, app.cache, app.hw
      ensures View() == React(old(View()), Msg.WanUp(ip, isSta))
    {
      hide Spec.AddTable;
      if ip == 0 { return; }
      wanUp := true;
      cfg := cfg.(wan := ip, isSta := isSta);
      var ret := app.AddTable(ip);
    }

    method TriggerWANDown(ip: Ip)
      requires app.Valid() && wanUp
      modifies this, app, app.cache, app.hw
      ensures View() == React(old(View()), WanDown(ip))
    {
      hide Spec.DeleteTable;
      wanUp := false;
      var ret := app.DeleteTable(ip);
    }

    method AddORDeleteNatEntry(ct: Ct, e: Entry, temp: bool)
      requires app.Valid()
      modifies app, app.cache, app.temp, app.hw
      ensures View() == old(View()).(app := Route(old(View()), ct, e, temp))
    {
      hide Spec.AddEntry, Spec.CacheEntry, Spec.AddTempEntry, Spec.DeleteEntry, Spec.DeleteTempEntry;
      if Opens(ct) {
        if !wanUp {
          app.CacheEntry(e);
        } else if temp {
          app.AddTempEntry(e);
        } else {
          var ret := app.AddEntry(e);
        }
      } else if Closes(ct) {
        app.DeleteEntry(e.key);
        app.DeleteTempEntry(e.key);
      }
    }

    /** event_callback */
    method Callback(m: Msg)
      requires app.Valid()
      modifies this, app, app.cache, app.temp, app.pwr, app.hw
      ensures View() == React(old(View()), m)
    {
      hide Step, Route, MakeEntry;
      match m
      case WanUp(ip, isSta) => if !wanUp { TriggerWANUp(ip, isSta); }
      case WanDown(ip) => if wanUp { TriggerWANDown(ip); }
      case Message(ct) =>
        var r := MakeEntry(ct, cfg);
        if r.Some? { AddORDeleteNatEntry(ct, r.value.0, r.value.1); }
      case Other(op) =>
        if !op.OpAddTable? && !op.OpDeleteTable? { app.Do(op); }
    }
  }
}
