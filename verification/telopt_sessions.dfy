/** What option negotiation guarantees against an arbitrary peer, over whole sessions (section 3.2.1 of RFC 1123). */
module TelOptSessions {
  import opened Wire
  import opened Settings
  import opened TelOpt

  /** Everything that touches the option table between creation of a context and its end. */
  datatype Op =
    | NewCall                   // telOptReset
    | SendRequests(cfg: Atcmd)  // telOptSendReqs
    | Receive(m: Msg)           // telOptHandle
    | MarkSent(sent: bool)      // dialling a port, %B and %L only set the sentReqs flag
    | Drop                      // the connection goes down for any other reason

  /** The option table and whether the connection is up. A fatal command takes the connection down, but the rest of the
      bytes received with it are still handled, and the next call starts over on the same table. */
  datatype Session = Session(tel: Tel, alive: bool)

  const START := Session(FRESH, false)

  function Step(s: Session, op: Op): Session {
    match op
    case NewCall => Session(Reset(s.tel), true)
    case SendRequests(cfg) => s.(tel := SendReqs(s.tel, cfg).tel)
    case Receive(m) => var h := Handle(s.tel, m); Session(h.tel, s.alive && !h.fatal)
    case MarkSent(sent) => s.(tel := s.tel.(sentReqs := sent))
    case Drop => s.(alive := false)
  }

  function Run(s: Session, ops: seq<Op>): Session
    decreases |ops|
  {
    if ops == [] then s else Run(Step(s, ops[0]), ops[1..])
  }

  ghost predicate Met(c: OptState) {
    && (c.req == Must ==> c.on || c.pending)
    && (c.req == MustNot ==> !c.on || c.pending)
  }

  ghost predicate Enforced(t: Table) {
    forall slot :: 0 <= slot < DEFAULT_SLOT ==> Met(t[slot].local) && Met(t[slot].remote)
  }

  ghost predicate DefaultRefuses(t: Table) {
    var e := t[DEFAULT_SLOT];
    e.local == OptState(MustNot, false, false) && e.remote == OptState(MustNot, false, false)
  }

  ghost predicate Cached(t: Tel) {
    && t.binsend == t.table[SlotOf(TELOPT_BINARY)].local.on
    && t.binrecv == t.table[SlotOf(TELOPT_BINARY)].remote.on
    && t.sgasend == t.table[SlotOf(TELOPT_SGA)].remote.on
  }

  /** Requirements that no setting governs. */
  ghost predicate Fixed(t: Table) {
    t[1].local.req == MustNot && t[2].local.req == Better && t[3].remote.req == MustNot
  }

  /** The requirements in the table are those the settings ask for. */
  ghost predicate Governed(t: Table, cfg: Atcmd) {
    && t[0].local.req == BinaryReq(cfg.pb1) && t[0].remote.req == BinaryReq(cfg.pb0)
    && t[2].remote.req == CharModeReq(cfg.pl) && t[1].remote.req == CharModeReq(cfg.pl)
    && t[3].local.req == (if cfg.termWont then MustNot else Neutral)
    && Fixed(t)
  }

  /** What holds of the table, call after call. The fatal path of telOptHandle leaves the flags as they were, but then
      it changes no state either. */
  ghost predicate TelOk(t: Tel, alive: bool) {
    && DefaultRefuses(t.table) && Fixed(t.table) && Cached(t)
    && (t.asked.Asked? ==> Governed(t.table, t.asked.cfg))
    && (alive && t.asked.Asked? ==> Enforced(t.table))
  }

  ghost predicate Sound(s: Session) { TelOk(s.tel, s.alive) }

  lemma ReactKeepsMet(c: OptState, on: bool)
    requires Met(c)
    ensures !React(c, on).fatal ==> Met(React(c, on).cell)
  {
  }

  /** A table after setReqs differs from the one before in requirements only. */
  lemma SetReqsKeepsStates(t: Table, cfg: Atcmd)
    ensures var t' := SetReqs(t, cfg);
      && t'[DEFAULT_SLOT] == t[DEFAULT_SLOT]
      && forall slot :: 0 <= slot < ENTRIES ==>
            && t'[slot].local.on == t[slot].local.on && t'[slot].local.pending == t[slot].local.pending
            && t'[slot].remote.on == t[slot].remote.on && t'[slot].remote.pending == t[slot].remote.pending
  {
  }

  lemma SetReqsGoverns(t: Table, cfg: Atcmd)
    requires Fixed(t)
    ensures Governed(SetReqs(t, cfg), cfg)
  {
  }

  lemma AfterAllGoverned(t: Table, cfg: Atcmd)
    requires Governed(t, cfg)
    ensures Governed(AfterAll(t), cfg)
  {
  }

  lemma AfterAllEnforced(t: Table)
    ensures Enforced(AfterAll(t))
    ensures DefaultRefuses(t) ==> DefaultRefuses(AfterAll(t))
  {
  }

  lemma SendKeeps(t: Tel, cfg: Atcmd, alive: bool)
    requires TelOk(t, alive)
    ensures TelOk(SendReqs(t, cfg).tel, alive)
  {
    var t1 := SetReqs(t.table, cfg);
    SetReqsKeepsStates(t.table, cfg);
    SetReqsGoverns(t.table, cfg);
    AfterAllEnforced(t1);
    AfterAllGoverned(t1, cfg);
  }

  lemma ResetKeeps(t: Tel, alive: bool)
    requires TelOk(t, alive)
    ensures TelOk(Reset(t), true)
  {
  }

  /** One command at one side of one entry, seen from all the others. */
  lemma HandleTable(t: Tel, m: Msg)
    ensures var slot, isLocal := SlotOf(m.opt), !m.AboutSender();
      Handle(t, m).tel.table == Update(t.table, slot, isLocal, React(t.table[slot].Side(isLocal), m.On()).cell)
    ensures Handle(t, m).tel.asked == t.asked
  {
  }

  lemma ReactKeepsReq(c: OptState, on: bool)
    ensures React(c, on).cell.req == c.req
    ensures c == OptState(MustNot, false, false) ==> React(c, on).cell == c && !React(c, on).fatal
  {
  }

  lemma ReceiveKeeps(t: Tel, m: Msg, alive: bool)
    requires TelOk(t, alive)
    ensures TelOk(Handle(t, m).tel, alive && !Handle(t, m).fatal)
  {
    var slot, isLocal := SlotOf(m.opt), !m.AboutSender();
    var c := t.table[slot].Side(isLocal);
    HandleTable(t, m);
    ReactKeepsReq(c, m.On());
    if alive && t.asked.Asked? && slot < DEFAULT_SLOT {
      ReactKeepsMet(c, m.On());
    }
  }

  lemma StepKeepsSound(s: Session, op: Op)
    requires Sound(s)
    ensures Sound(Step(s, op))
  {
    match op
    case NewCall => ResetKeeps(s.tel, s.alive);
    case SendRequests(cfg) => SendKeeps(s.tel, cfg, s.alive);
    case Receive(m) => ReceiveKeeps(s.tel, m, s.alive);
    case MarkSent(_) =>
    case Drop =>
  }

  lemma {:induction false} RunKeepsSound(s: Session, ops: seq<Op>)
    requires Sound(s)
    ensures Sound(Run(s, ops))
    decreases |ops|
  {
    if ops == [] {
    } else {
      StepKeepsSound(s, ops[0]);
      RunKeepsSound(Step(s, ops[0]), ops[1..]);
    }
  }

  /** Requirement enforcement over the whole life of a context, through any number of calls, refused and dropped ones
      included. While a connection is up and requests went out in its call, every MUST option is enabled or still being
      asked for, and every MUST NOT option is disabled or still being refused. At all times, up or down, the summary
      flags are the table entries they cache, and the entry for unknown options refuses. */
  lemma RequirementsEnforced(ops: seq<Op>)
    ensures var s := Run(START, ops);
      && DefaultRefuses(s.tel.table) && Cached(s.tel)
      && (s.alive && s.tel.asked.Asked? ==> Enforced(s.tel.table))
  {
    RunKeepsSound(START, ops);
  }

  ghost predicate OnOrAsked(c: OptState) { c.on || c.pending }

  ghost predicate OffOrRefused(c: OptState) { !c.on || c.pending }

  /** What the settings promise the user: %B1=3 and %B0=3 insist on binary from the modem and from the peer, and the
      values 2 insist on none; %L2 insists on character mode, that is on the peer's SGA and ECHO, and %L3 on line mode;
      %T0 refuses the terminal type. The modem never echoes and never takes the peer's terminal type. */
  ghost predicate Promised(t: Table, cfg: Atcmd) {
    && (cfg.pb1 == 3 ==> OnOrAsked(t[SlotOf(TELOPT_BINARY)].local))
    && (cfg.pb1 == 2 ==> OffOrRefused(t[SlotOf(TELOPT_BINARY)].local))
    && (cfg.pb0 == 3 ==> OnOrAsked(t[SlotOf(TELOPT_BINARY)].remote))
    && (cfg.pb0 == 2 ==> OffOrRefused(t[SlotOf(TELOPT_BINARY)].remote))
    && (cfg.pl == 2 ==> OnOrAsked(t[SlotOf(TELOPT_SGA)].remote) && OnOrAsked(t[SlotOf(TELOPT_ECHO)].remote))
    && (cfg.pl == 3 ==> OffOrRefused(t[SlotOf(TELOPT_SGA)].remote) && OffOrRefused(t[SlotOf(TELOPT_ECHO)].remote))
    && (cfg.termWont ==> OffOrRefused(t[SlotOf(TELOPT_TTYPE)].local))
    && OffOrRefused(t[SlotOf(TELOPT_ECHO)].local) && OffOrRefused(t[SlotOf(TELOPT_TTYPE)].remote)
  }

  lemma EnforcedPromises(t: Table, cfg: Atcmd)
    requires Enforced(t) && Governed(t, cfg)
    ensures Promised(t, cfg)
  {
    assert forall slot :: 0 <= slot < DEFAULT_SLOT ==> Met(t[slot].local) && Met(t[slot].remote);
  }

  /** The promises hold in every call of every session, under the settings its requests went out with. */
  lemma SettingsEnforced(ops: seq<Op>)
    ensures var s := Run(START, ops);
      s.alive && s.tel.asked.Asked? ==> Promised(s.tel.table, s.tel.asked.cfg)
  {
    RunKeepsSound(START, ops);
    var t := Run(START, ops).tel;
    if Run(START, ops).alive && t.asked.Asked? {
      EnforcedPromises(t.table, t.asked.cfg);
    }
  }
}
