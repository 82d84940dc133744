/** What a conntrack message or a WAN event does to NatApp, read off the message, the configuration
    and the state alone. */
module ConntrackMessages {
  import opened Driver
  import opened NatApp
  import opened NatMirror
  import opened NatEffects
  import opened Conntrack

  // ---- Reading a message -----------------------------------------------------------------------

  /** A connection's private and remote ends and the port it has on the WAN side. */
  datatype Ends = Ends(priv: Ip, privPort: nat, remote: Ip, remotePort: nat, wanPort: nat)

  /** The kernel translated the destination, or nothing and it was sent to the WAN address. */
  predicate Inbound(ct: Ct, wan: Ip) {
    ct.dstNat || (!ct.srcNat && ct.origSrc != 0 && ct.origDst != 0 && ct.origSrc != wan && ct.origDst == wan)
  }

  /** It translated only the source, or nothing and it was sent from the WAN address. */
  predicate Outbound(ct: Ct, wan: Ip) {
    !ct.dstNat && (ct.srcNat || (ct.origSrc != 0 && ct.origDst != 0 && ct.origSrc == wan))
  }

  function EndsOf(ct: Ct, wan: Ip): Ends {
    if Inbound(ct, wan) then Ends(ct.replSrc, ct.replSport, ct.origSrc, ct.origSport, ct.origDport)
    else Ends(ct.origSrc, ct.origSport, ct.origDst, ct.origDport, ct.replDport)
  }

  /** One of the (non-zero) addresses is an end of the connection. */
  predicate OneOf(ips: seq<Ip>, e: Ends) { exists ip :: ip in ips && ip != 0 && (ip == e.priv || ip == e.remote) }

  /** The message is none of NatApp's business: untranslated and not to or from the WAN address; a
      station's own; or between addresses nobody here knows. */
  predicate Ignored(ct: Ct, cfg: Config) {
    var e := EndsOf(ct, cfg.wan);
    || (!Inbound(ct, cfg.wan) && !Outbound(ct, cfg.wan))
    || (if e.priv == cfg.wan then cfg.isSta
        else !OneOf(cfg.natIfs, e) && !OneOf(cfg.nonNatIfs, e) && !cfg.privates(e.priv) && !cfg.privates(e.remote))
  }

  /** The private end is the WAN's own, or the client's addresses are not translated. */
  predicate Untranslated(cfg: Config, e: Ends) {
    e.priv == cfg.wan || (!OneOf(cfg.natIfs, e) && OneOf(cfg.nonNatIfs, e))
  }

  function TupleOf(ct: Ct, cfg: Config): Tuple {
    var e := EndsOf(ct, cfg.wan);
    if Untranslated(cfg, e) then Tuple(cfg.wan, e.remote, e.wanPort, e.remotePort, ct.protocol)
    else Tuple(e.priv, e.remote, e.privPort, e.remotePort, ct.protocol)
  }

  function EntryOf(ct: Ct, cfg: Config): Entry {
    Entry(TupleOf(ct, cfg), cfg.wan, EndsOf(ct, cfg.wan).wanPort, 0, Inbound(ct, cfg.wan), false, 0)
  }

  /** A target in the subnet of the station's clients that is none of them. */
  predicate Stranger(cfg: Config, target: Ip) {
    cfg.isSta && |cfg.staClients| > 0 && cfg.staClients[0] / 256 == target / 256
    && forall i :: 0 <= i < |cfg.staClients| ==> cfg.staClients[i] != target
  }

  /** The connection waits among the temp entries: its ends are known only as private addresses, or
      its target is a stranger. */
  predicate Waits(ct: Ct, cfg: Config) {
    var e := EndsOf(ct, cfg.wan);
    e.priv != cfg.wan && ((!OneOf(cfg.natIfs, e) && !OneOf(cfg.nonNatIfs, e)) || Stranger(cfg, e.remote))
  }

  lemma KnownIs(ips: seq<Ip>, e: Entry, ends: Ends)
    requires e.key.privateIp == ends.priv && e.key.targetIp == ends.remote
    ensures Known(ips, e) <==> OneOf(ips, ends)
  {
    if Known(ips, e) {
      var i :| 0 <= i < |ips| && ips[i] != 0 && (e.key.privateIp == ips[i] || e.key.targetIp == ips[i]);
      assert ips[i] in ips;
    }
    if OneOf(ips, ends) {
      var ip :| ip in ips && ip != 0 && (ip == ends.priv || ip == ends.remote);
      var i :| 0 <= i < |ips| && ips[i] == ip;
    }
  }

  /** Which messages are ignored, and what entry, temporary or not, the others become. */
  lemma MessageEntry(ct: Ct, cfg: Config)
    ensures MakeEntry(ct, cfg).None? <==> Ignored(ct, cfg)
    ensures !Ignored(ct, cfg) ==> MakeEntry(ct, cfg) == Some((EntryOf(ct, cfg), Waits(ct, cfg)))
  {
    var dir := Classify(ct, cfg.wan);
    if dir.Neither? { return; }
    var e := Populate(ct, dir, cfg.wan);
    KnownIs(cfg.natIfs, e, EndsOf(ct, cfg.wan));
    KnownIs(cfg.nonNatIfs, e, EndsOf(ct, cfg.wan));
    hide Known, OneOf;
  }

  // ---- What a message does -----------------------------------------------------------------------

  predicate Opening(ct: Ct) { (ct.protocol == 6 && ct.tcp == Established) || (ct.protocol == 17 && ct.kind == NewMsg) }

  predicate Closing(ct: Ct) {
    || (ct.protocol == 6 && ct.tcp != Established && (ct.tcp == FinWait || ct.kind == DestroyMsg))
    || (ct.protocol == 17 && ct.kind == DestroyMsg)
  }

  /** An ignored message does nothing.  An opened connection is cached while the WAN is down, waits
      among the temp entries when it has to, and is added otherwise; a closed one leaves the cache
      and the temp entries. */
  ghost predicate MessageFollows(l: Listener, ct: Ct, s': State) {
    var s, e := l.app, EntryOf(ct, l.cfg);
    if Ignored(ct, l.cfg) then s' == s
    else if Opening(ct) then
      if !l.wanUp then CacheFollows(s, e, s')
      else if Waits(ct, l.cfg) then TempFollows(s, e, s')
      else exists ret :: AddFollows(s, e, s', ret)
    else if Closing(ct) then exists s1 :: DeleteFollows(s, e.key, s1) && TempGoneFollows(s1, e.key, s')
    else s' == s
  }

  lemma MessageEffect(l: Listener, ct: Ct)
    requires Inv(l.app)
    ensures var l' := React(l, Message(ct));
            MessageFollows(l, ct, l'.app) && l'.wanUp == l.wanUp && l'.cfg == l.cfg
  {
    MessageEntry(ct, l.cfg);
    hide MakeEntry, Ignored, EntryOf, Waits, AddEntry, CacheEntry, DeleteEntry, AddTempEntry, DeleteTempEntry,
      AddFollows, CacheFollows, DeleteFollows, TempFollows, TempGoneFollows, Inv;
    var e := EntryOf(ct, l.cfg);
    AddEffectIs(l.app, e);
    CacheEffectIs(l.app, e);
    TempEffectIs(l.app, e);
    DeleteEffectIs(l.app, e.key);
    TempGoneIs(DeleteEntry(l.app, e.key), e.key);
  }

  /** What a WAN event does: an address comes up only while the WAN is down, and goes down only
      while it is up; the listener's flag follows whatever the hardware answers. */
  ghost predicate WanFollows(l: Listener, m: Msg, l': Listener)
    requires m.WanUp? || m.WanDown?
  {
    match m
    case WanUp(ip, isSta) =>
      if l.wanUp || ip == 0 then l' == l
      else
        && (exists ret :: UpFollows(l.app, ip, l'.app, ret))
        && l'.wanUp && l'.cfg == l.cfg.(wan := ip, isSta := isSta)
    case WanDown(ip) =>
      if !l.wanUp then l' == l
      else (exists ret :: DownFollows(l.app, ip, l'.app, ret)) && !l'.wanUp && l'.cfg == l.cfg
  }

  lemma WanEffect(l: Listener, m: Msg)
    requires Inv(l.app) && (m.WanUp? || m.WanDown?)
    ensures WanFollows(l, m, React(l, m))
  {
    hide Inv, AddTable, DeleteTable, UpFollows, DownFollows;
    if m.WanUp? { UpEffectIs(l.app, m.ip); } else { DownEffectIs(l.app, m.ip); }
  }

  // ---- End to end ------------------------------------------------------------------------------

  /** The WAN is up and the hardware takes the tuple: a table, no ALG port, all five fields, not
      cached yet, a free slot, nobody asleep, the next call carried out. */
  predicate Ready(l: Listener, k: Tuple) {
    var s := l.app;
    && l.wanUp && s.tbl != 0 && !HasAlg(s.alg, k) && !Incomplete(k) && !Holds(s.cache, k) && Holds(s.cache, ZERO)
    && !Asleep(s.pwr, k) && Answer(s.hw).Done?
  }

  /** A slot is filled and enabled for k, its rule is installed under a new handle with this public
      port, and nothing else changes, the temp entries least of all. */
  ghost predicate Installed(s: State, s': State, k: Tuple, port: nat) {
    exists h, c: Entry ::
      && c.key == k && c.publicPort == port && c.enabled && c.hdl == h
      && h !in s.hw.rules && s'.hw.rules == s.hw.rules[h := Rule(k, port)]
      && Placed(s.cache, s'.cache, c) && s' == s.(cache := s'.cache, hw := s'.hw, cnt := s'.cnt)
  }

  /** A NAT client's opened connection is translated by the hardware: from its own end, with the
      source's translation, or from the reply's, with the destination's. */
  lemma NatClientInstalled(l: Listener, ct: Ct)
    requires Inv(l.app) && Opening(ct) && !Ignored(ct, l.cfg) && !Waits(ct, l.cfg) && Ready(l, TupleOf(ct, l.cfg))
    ensures var s, s' := l.app, React(l, Message(ct)).app;
            && Installed(s, s', TupleOf(ct, l.cfg), EndsOf(ct, l.cfg.wan).wanPort)
            && (ct.srcNat && !ct.dstNat && !Untranslated(l.cfg, EndsOf(ct, l.cfg.wan)) ==>
                  Installed(s, s', Tuple(ct.origSrc, ct.origDst, ct.origSport, ct.origDport, ct.protocol), ct.replDport))
            && (ct.dstNat && !Untranslated(l.cfg, EndsOf(ct, l.cfg.wan)) ==>
                  Installed(s, s', Tuple(ct.replSrc, ct.origSrc, ct.replSport, ct.origSport, ct.protocol), ct.origDport))
  {
    MessageEffect(l, ct);
    var s, s', e := l.app, React(l, Message(ct)).app, EntryOf(ct, l.cfg);
    hide React, Inv, Ignored, Waits, HasAlg, Holds, Asleep, Placed;
    var ret :| AddFollows(s, e, s', ret);
    var h :| && h !in s.hw.rules
             && Placed(s.cache, s'.cache, Entry(e.key, 0, e.publicPort, 0, e.dstNat, true, h))
             && s'.hw == s.hw.(pos := s.hw.pos + 1, rules := s.hw.rules[h := Rule(e.key, e.publicPort)])
             && s' == s.(cache := s'.cache, hw := s'.hw, cnt := s.cnt + 1);
    var c := Entry(e.key, 0, e.publicPort, 0, e.dstNat, true, h);
    assert c.key == TupleOf(ct, l.cfg) && c.publicPort == EndsOf(ct, l.cfg.wan).wanPort && c.enabled && c.hdl == h;
  }

  /** A client known to NAT by address, in a WAN that is no station's, never waits. */
  lemma NatClientGoesOn(ct: Ct, cfg: Config)
    requires Inbound(ct, cfg.wan) || Outbound(ct, cfg.wan)
    requires EndsOf(ct, cfg.wan).priv != cfg.wan && OneOf(cfg.natIfs, EndsOf(ct, cfg.wan)) && !cfg.isSta
    ensures !Ignored(ct, cfg) && !Waits(ct, cfg) && !Untranslated(cfg, EndsOf(ct, cfg.wan))
  {
    hide OneOf;
  }

  /** A connection whose ends are known only as private addresses waits: neither cache nor hardware
      changes. */
  lemma PrivateWaits(l: Listener, ct: Ct)
    requires Inv(l.app) && Opening(ct) && l.wanUp && !Ignored(ct, l.cfg)
    requires var e := EndsOf(ct, l.cfg.wan);
             e.priv != l.cfg.wan && !OneOf(l.cfg.natIfs, e) && !OneOf(l.cfg.nonNatIfs, e)
    ensures var s, s' := l.app, React(l, Message(ct)).app;
            && TempFollows(s, EntryOf(ct, l.cfg), s')
            && s' == s.(temp := s'.temp) && s'.cache == s.cache && s'.hw == s.hw
  {
    MessageEffect(l, ct);
    hide React, Inv, Ignored, OneOf, HasAlg, Holds, Blank;
  }
}
