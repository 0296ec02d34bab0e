/** What blocking and joining promise: whoever blocks does not run before it is woken, whoever joins does not
    go on before its target has got past waking it, and a target that waits for its joiner is not let down. */
module JoinWaits {
  import opened Basics
  import opened UltBlocking
  import StopTest

  /** The ULT whose end a ULT waits for, as long as it is inside join. */
  function Joining(pc: Pc): Option<Ult> {
    if pc.Landed? then Some(pc.t) else Target(pc)
  }

  /** t has terminated, or has passed the point where it wakes its joiner. */
  predicate Gone(s: State, t: Ult) {
    t in s.thread && Past(s.thread[t])
  }

  /** A joiner that is woken, or back in join, finds its target gone. */
  predicate JoinDone(s: State, j: Ult) {
    j in s.thread ==>
      match s.thread[j].pc
      case Suspend(Some(t)) => Owed(s, j, t) || Gone(s, t)
      case Asleep(Some(t)) => Owed(s, j, t) || Gone(s, t)
      case Landed(t) => Gone(s, t)
      case _ => true
  }

  /** On its way from setting JOIN on t to linking itself to t. */
  predicate Linking(pc: Pc, t: Ult) {
    pc == Request(t) || pc == Mark(Some(t)) || pc == Count(Some(t)) || pc == SetLink(t)
  }

  /** A target on which JOIN is set and that has no link yet has a joiner that is about to set it. */
  predicate Helped(s: State, t: Ult) {
    (t in s.thread && s.thread[t].pc.EndWait? ==> s.thread[t].join) &&
    (t in s.thread && s.thread[t].join && !Past(s.thread[t]) && s.thread[t].link.None? ==>
      t in s.asked && s.asked[t] in s.thread && Linking(s.thread[s.asked[t]].pc, t))
  }

  ghost predicate JoinInv(s: State) {
    (forall j :: JoinDone(s, j)) && (forall t :: Helped(s, t))
  }

  // ----- frames -----

  /** The step is one of v's own, or one that wakes, resumes or dispatches it. */
  predicate Touches(s: State, a: Action, v: Ult) {
    match a
    case Own(e, o) => e in s.es && s.es[e].On? && s.es[e].u in s.thread && (v == s.es[e].u || Partner(s, e, o) == Some(v))
    case Sched(e, d) => (d.Start? || d.Dispatch?) && e in s.es && !s.es[e].Idle? && !s.es[e].Stopped? && v == s.es[e].u
    case Help(Wake(u)) => v == u
    case Help(WakeReady(u)) => v == u
    case Help(WakePush(u)) => v == u
    case _ => false
  }

  predicate Quiet(s: State, s': State, v: Ult) {
    v in s.thread && v in s'.thread && SameButJoin(s.thread[v], s'.thread[v]) && (v in s'.wake <==> v in s.wake)
  }

  lemma Untouched(c: Config, s: State, a: Action, v: Ult)
    requires Enabled(c, s, a) && v in s.thread && !Touches(s, a, v)
    ensures Quiet(s, Do(c, s, a), v)
  {
    match a
    case Own(e, o) => OwnFrame(c, s, e, o, v);
    case Sched(e, d) =>
      if d.Start? || d.Dispatch? {
        SchedFrame(c, s, e, d, v);
      }
    case Help(h) => HelpElsewhere(c, s, h, v);
  }

  lemma HelpElsewhere(c: Config, s: State, h: HelpStep, v: Ult)
    requires CanHelp(c, s, h) && v in s.thread && !Touches(s, Help(h), v)
    ensures Quiet(s, DoHelp(c, s, h), v)
  {
    match h
    case Create(_) =>
    case Wake(_) =>
    case WakeReady(_) =>
    case WakePush(_) =>
    case WakeDecrease(_) =>
  }

  // ----- what is past stays past -----

  lemma GoneOwn(c: Config, s: State, w: map<Ult, Place>, b: map<Pool, set<Ult>>, e: Es, o: OwnStep, t: Ult)
    requires Inv(c, s, w, b) && CanOwn(c, s, e, o) && Gone(s, t) && !s.thread[t].life.Terminated?
    ensures Gone(DoOwn(c, s, e, o), t)
  {
    Actor(c, s, w, b, e);
    if t == s.es[e].u {
      GoneSelf(c, s, e, o);
    } else {
      if Partner(s, e, o) == Some(t) {
        PartnerNotPast(c, s, w, b, e, o, t);
      }
      OwnFrame(c, s, e, o, t);
    }
  }

  lemma GoneSelf(c: Config, s: State, e: Es, o: OwnStep)
    requires CanOwn(c, s, e, o) && Past(s.thread[s.es[e].u]) && !s.thread[s.es[e].u].life.Terminated?
    ensures Gone(DoOwn(c, s, e, o), s.es[e].u)
  {
  }

  lemma PartnerNotPast(c: Config, s: State, w: map<Ult, Place>, b: map<Pool, set<Ult>>, e: Es, o: OwnStep, t: Ult)
    requires Inv(c, s, w, b) && CanOwn(c, s, e, o) && Partner(s, e, o) == Some(t)
    ensures t in s.thread && t != s.es[e].u && !Past(s.thread[t]) && (s.thread[t].pc.Body? || s.thread[t].pc.Asleep? || s.thread[t].pc.Suspend?)
  {
    Actor(c, s, w, b, e);
    if o.DirectRemove? {
      Removable(c, s, w, b, e);
    } else if o.DirectSwitch? {
      Claimed(c, s, w, b, e);
    } else {
      LinkedJoiner(c, s, w, b, e);
    }
  }

  lemma GoneSched(c: Config, s: State, w: map<Ult, Place>, b: map<Pool, set<Ult>>, e: Es, d: SchedStep, t: Ult)
    requires Inv(c, s, w, b) && CanSched(c, s, e, d) && Gone(s, t) && !s.thread[t].life.Terminated?
    ensures Gone(DoSched(c, s, e, d), t)
  {
    if Touches(s, Sched(e, d), t) {
      Actor(c, s, w, b, e);
      if d.Dispatch? {
        DispatchKeeps(s, e);
      }
    } else {
      Untouched(c, s, Sched(e, d), t);
    }
  }

  /** The dispatch changes the state and the requests of a ULT only. */
  lemma DispatchKeeps(s: State, e: Es)
    requires e in s.es && s.es[e].Back? && s.es[e].u in s.thread
    ensures var (u, t) := (s.es[e].u, DoDispatch(s, e));
      && u in t.thread && t.thread[u].pc == s.thread[u].pc && t.wake == s.wake
      && (!s.thread[u].term && s.thread[u].block ==> t.thread[u].life == s.thread[u].life)
  {
    if s.thread[s.es[e].u].term {
    } else if s.thread[s.es[e].u].block {
    } else {
    }
  }

  lemma GoneStays(c: Config, s: State, w: map<Ult, Place>, b: map<Pool, set<Ult>>, a: Action, t: Ult)
    requires Inv(c, s, w, b) && Enabled(c, s, a) && Gone(s, t)
    ensures Gone(Do(c, s, a), t)
  {
    if s.thread[t].life.Terminated? {
      StopTest.FinishedStays(c, s, w, b, a, t);
    } else {
      match a
      case Own(e, o) => GoneOwn(c, s, w, b, e, o, t);
      case Sched(e, d) => GoneSched(c, s, w, b, e, d, t);
      case Help(h) =>
        if Touches(s, a, t) {
          HelpsSleeper(c, s, w, b, h);
        } else {
          Untouched(c, s, a, t);
        }
    }
  }

  /** A ULT that is woken or readied is blocked. */
  lemma HelpsSleeper(c: Config, s: State, w: map<Ult, Place>, b: map<Pool, set<Ult>>, h: HelpStep)
    requires Inv(c, s, w, b) && CanHelp(c, s, h) && (h.Wake? || h.WakeReady? || h.WakePush?)
    ensures h.u in s.thread && !Past(s.thread[h.u]) && (h.Wake? <==> h.u !in s.wake)
    ensures h.Wake? || s.thread[h.u].pc.Asleep?
  {
    if !h.Wake? {
      WokenIsOff(c, s, w, b, h.u);
    } else {
      assert Ok(c, s, h.u, w[h.u]);
    }
  }

  // ----- a joiner that is woken finds its target gone -----

  lemma DoneSelf(c: Config, s: State, e: Es, o: OwnStep)
    requires CanOwn(c, s, e, o) && JoinDone(s, s.es[e].u) && Joins(c, s, s.es[e].u)
    ensures JoinDone(DoOwn(c, s, e, o), s.es[e].u)
  {
    if o.End? {
      DoneEnder(s, e, s.es[e].u);
    } else if o.Advance? {
      DoneAdvancing(c, s, e);
    } else {
      DoneOther(c, s, e, o);
    }
  }

  lemma DoneEnder(s: State, e: Es, u: Ult)
    requires u in s.thread && s.thread[u].pc.Body? && s.thread[u].link != Some(u)
    ensures JoinDone(DoEnd(s, e, u), u)
  {
    if Jumps(s, u) {
    } else if s.thread[u].link.Some? {
    } else {
    }
  }

  lemma DoneAdvancing(c: Config, s: State, e: Es)
    requires CanOwn(c, s, e, Advance) && JoinDone(s, s.es[e].u) && Joins(c, s, s.es[e].u)
    ensures JoinDone(DoOwn(c, s, e, Advance), s.es[e].u)
  {
  }

  lemma DoneOther(c: Config, s: State, e: Es, o: OwnStep)
    requires CanOwn(c, s, e, o) && !o.End? && !o.Advance? && JoinDone(s, s.es[e].u) && Joins(c, s, s.es[e].u)
    ensures JoinDone(DoOwn(c, s, e, o), s.es[e].u)
  {
  }

  /** The joiner that an ending ULT wakes or jumps to, and the target of a direct join. */
  lemma DonePartner(c: Config, s: State, e: Es, o: OwnStep, j: Ult)
    requires CanOwn(c, s, e, o) && JoinDone(s, j) && Partner(s, e, o) == Some(j) && j in s.thread && j != s.es[e].u
    requires o.End? || o.EndWake? ==> Owed(s, j, s.es[e].u)
    requires o.DirectRemove? || o.DirectSwitch? ==> Fit(s, j)
    requires forall x :: Gone(s, x) ==> Gone(DoOwn(c, s, e, o), x)
    ensures JoinDone(DoOwn(c, s, e, o), j)
  {
    if o.End? {
      DoneEnded(s, e, s.es[e].u, j);
    } else if o.DirectSwitch? {
      DoneTaken(c, s, e, j);
    }
  }

  lemma DoneTaken(c: Config, s: State, e: Es, j: Ult)
    requires CanOwn(c, s, e, DirectSwitch) && JoinDone(s, j) && PcOn(s, e).t == j && j != s.es[e].u && Fit(s, j)
    requires forall x :: Gone(s, x) ==> Gone(DoOwn(c, s, e, DirectSwitch), x)
    ensures JoinDone(DoOwn(c, s, e, DirectSwitch), j)
  {
  }

  lemma DoneEnded(s: State, e: Es, u: Ult, j: Ult)
    requires u in s.thread && s.thread[u].link == Some(j) && j != u && Owed(s, j, u)
    ensures JoinDone(DoEnd(s, e, u), j)
  {
    if Jumps(s, u) {
    } else {
    }
  }

  lemma DoneQuiet(s: State, s': State, j: Ult)
    requires JoinDone(s, j) && Quiet(s, s', j) && forall x :: Gone(s, x) ==> Gone(s', x)
    ensures JoinDone(s', j)
  {
  }

  lemma DoneOwn(c: Config, s: State, w: map<Ult, Place>, b: map<Pool, set<Ult>>, e: Es, o: OwnStep, j: Ult)
    requires Inv(c, s, w, b) && CanOwn(c, s, e, o) && JoinDone(s, j) && j in s.thread
    requires forall x :: Gone(s, x) ==> Gone(DoOwn(c, s, e, o), x)
    ensures JoinDone(DoOwn(c, s, e, o), j)
  {
    JoinsOf(c, s, w, b, e);
    if j == s.es[e].u {
      DoneSelf(c, s, e, o);
    } else if Partner(s, e, o) == Some(j) {
      PartnerNotPast(c, s, w, b, e, o, j);
      PartnerIs(c, s, w, b, e, o, j);
      DonePartner(c, s, e, o, j);
    } else {
      Untouched(c, s, Own(e, o), j);
      DoneQuiet(s, DoOwn(c, s, e, o), j);
    }
  }

  lemma PartnerIs(c: Config, s: State, w: map<Ult, Place>, b: map<Pool, set<Ult>>, e: Es, o: OwnStep, j: Ult)
    requires Inv(c, s, w, b) && CanOwn(c, s, e, o) && Partner(s, e, o) == Some(j)
    ensures o.End? || o.EndWake? ==> Owed(s, j, s.es[e].u)
    ensures o.DirectRemove? || o.DirectSwitch? ==> Fit(s, j)
  {
    Actor(c, s, w, b, e);
    if o.DirectRemove? {
      Removable(c, s, w, b, e);
    } else if o.DirectSwitch? {
      Claimed(c, s, w, b, e);
    } else {
      LinkedJoiner(c, s, w, b, e);
    }
  }

  lemma DoneSched(c: Config, s: State, w: map<Ult, Place>, b: map<Pool, set<Ult>>, e: Es, d: SchedStep, j: Ult)
    requires Inv(c, s, w, b) && CanSched(c, s, e, d) && JoinDone(s, j) && j in s.thread
    requires forall x :: Gone(s, x) ==> Gone(DoSched(c, s, e, d), x)
    ensures JoinDone(DoSched(c, s, e, d), j)
  {
    if Touches(s, Sched(e, d), j) {
      Actor(c, s, w, b, e);
      if d.Start? {
        DoneStarted(c, s, e);
      } else {
        DispatchKeeps(s, e);
      }
    } else {
      Untouched(c, s, Sched(e, d), j);
      DoneQuiet(s, DoSched(c, s, e, d), j);
    }
  }

  lemma DoneStarted(c: Config, s: State, e: Es)
    requires CanSched(c, s, e, Start) && Fit(s, s.es[e].u) && JoinDone(s, s.es[e].u)
    requires forall x :: Gone(s, x) ==> Gone(DoSched(c, s, e, Start), x)
    ensures JoinDone(DoSched(c, s, e, Start), s.es[e].u)
  {
  }

  lemma DoneHelp(c: Config, s: State, w: map<Ult, Place>, b: map<Pool, set<Ult>>, h: HelpStep, j: Ult)
    requires Inv(c, s, w, b) && CanHelp(c, s, h) && JoinDone(s, j) && j in s.thread
    requires forall x :: Gone(s, x) ==> Gone(DoHelp(c, s, h), x)
    ensures JoinDone(DoHelp(c, s, h), j)
  {
    if Touches(s, Help(h), j) {
      HelpsSleeper(c, s, w, b, h);
      DoneHelped(c, s, h);
    } else {
      Untouched(c, s, Help(h), j);
      DoneQuiet(s, DoHelp(c, s, h), j);
    }
  }

  lemma DoneHelped(c: Config, s: State, h: HelpStep)
    requires CanHelp(c, s, h) && (h.Wake? || h.WakeReady? || h.WakePush?) && JoinDone(s, h.u)
    requires h.u in s.thread && (!h.Wake? ==> h.u in s.wake && s.thread[h.u].pc.Asleep?)
    requires forall x :: Gone(s, x) ==> Gone(DoHelp(c, s, h), x)
    requires h.WakePush? ==> s.thread[h.u].life.Ready?
    ensures JoinDone(DoHelp(c, s, h), h.u)
  {
  }

  lemma DoneStep(c: Config, s: State, w: map<Ult, Place>, b: map<Pool, set<Ult>>, a: Action, j: Ult)
    requires Inv(c, s, w, b) && Enabled(c, s, a) && JoinDone(s, j)
    ensures JoinDone(Do(c, s, a), j)
  {
    forall x | Gone(s, x) ensures Gone(Do(c, s, a), x) {
      GoneStays(c, s, w, b, a, x);
    }
    KnownStep(c, s, w, b, a, j);
    if j in s.thread {
      match a
      case Own(e, o) => DoneOwn(c, s, w, b, e, o, j);
      case Sched(e, d) => DoneSched(c, s, w, b, e, d, j);
      case Help(h) => DoneHelp(c, s, w, b, h, j);
    } else if j in Do(c, s, a).thread {
      NewUlt(c, s, w, b, a, j);
    }
  }

  lemma NewUlt(c: Config, s: State, w: map<Ult, Place>, b: map<Pool, set<Ult>>, a: Action, v: Ult)
    requires Inv(c, s, w, b) && Enabled(c, s, a) && v !in s.thread && v in Do(c, s, a).thread
    ensures Do(c, s, a).thread[v].pc.Body? && !Do(c, s, a).thread[v].join
  {
    match a
    case Own(e, o) => KnownOwn(c, s, w, b, e, o, v);
    case Sched(e, d) => KnownSched(c, s, w, b, e, d, v);
    case Help(h) => KnownHelp(c, s, w, b, h, v);
  }

  // ----- a target that waits for its link gets it -----

  /** Links are never cleared, JOIN is set by a joiner or by the target itself as it ends, and who asked stays. */
  ghost predicate BitsKept(s: State, s': State, a: Action, t: Ult) {
    && t in s.thread && t in s'.thread
    && (s.thread[t].link.Some? ==> s'.thread[t].link.Some?)
    && (t in s.asked ==> t in s'.asked && s'.asked[t] == s.asked[t])
    && (s'.thread[t].pc.EndWait? ==> s'.thread[t].join || (s.thread[t].pc.EndWait? && !s.thread[t].join))
    && (s'.thread[t].join && !s.thread[t].join && !Past(s'.thread[t]) ==>
      t in s'.asked && s'.asked[t] in s'.thread && s'.thread[s'.asked[t]].pc == Request(t))
  }

  lemma BitsAdvance(c: Config, s: State, e: Es, t: Ult)
    requires CanOwn(c, s, e, Advance) && t in s.thread
    ensures BitsKept(s, DoOwn(c, s, e, Advance), Own(e, Advance), t)
  {
  }

  lemma BitsAsk(c: Config, s: State, e: Es, x: Ult, t: Ult)
    requires CanOwn(c, s, e, JoinIndirect(x)) && t in s.thread
    ensures BitsKept(s, DoOwn(c, s, e, JoinIndirect(x)), Own(e, JoinIndirect(x)), t)
  {
  }

  lemma BitsLink(c: Config, s: State, e: Es, t: Ult)
    requires CanOwn(c, s, e, LinkTarget) && t in s.thread
    ensures BitsKept(s, DoOwn(c, s, e, LinkTarget), Own(e, LinkTarget), t)
  {
  }

  lemma BitsSwitch(c: Config, s: State, e: Es, t: Ult)
    requires CanOwn(c, s, e, DirectSwitch) && t in s.thread
    ensures BitsKept(s, DoOwn(c, s, e, DirectSwitch), Own(e, DirectSwitch), t)
  {
  }

  lemma BitsOwn(c: Config, s: State, e: Es, o: OwnStep, t: Ult)
    requires CanOwn(c, s, e, o) && t in s.thread && !o.End?
    requires o.EndWake? ==> Partner(s, e, o).Some? && Partner(s, e, o).value in s.thread
    ensures BitsKept(s, DoOwn(c, s, e, o), Own(e, o), t)
  {
    match o
    case Advance => BitsAdvance(c, s, e, t);
    case JoinIndirect(x) => BitsAsk(c, s, e, x, t);
    case LinkTarget => BitsLink(c, s, e, t);
    case DirectSwitch => BitsSwitch(c, s, e, t);
    case _ => BitsRest(c, s, e, o, t);
  }

  lemma BitsRest(c: Config, s: State, e: Es, o: OwnStep, t: Ult)
    requires CanOwn(c, s, e, o) && t in s.thread
    requires o.Block? || o.Leave? || o.JoinDirect? || o.DirectRemove? || o.EndWake?
    ensures BitsKept(s, DoOwn(c, s, e, o), Own(e, o), t)
  {
  }

  lemma BitsEnd(s: State, e: Es, u: Ult, a: Action, t: Ult)
    requires u in s.thread && t in s.thread && (s.thread[u].link.Some? ==> s.thread[u].link.value in s.thread)
    ensures BitsKept(s, DoEnd(s, e, u), a, t)
  {
    if Jumps(s, u) {
    } else if s.thread[u].link.Some? {
    } else {
    }
  }

  lemma BitsSched(c: Config, s: State, e: Es, d: SchedStep, t: Ult)
    requires CanSched(c, s, e, d) && t in s.thread
    ensures BitsKept(s, DoSched(c, s, e, d), Sched(e, d), t)
  {
    if d.Dispatch? {
      if s.thread[s.es[e].u].term {
      } else if s.thread[s.es[e].u].block {
      } else {
      }
    }
  }

  lemma BitsHelp(c: Config, s: State, h: HelpStep, t: Ult)
    requires CanHelp(c, s, h) && t in s.thread
    ensures BitsKept(s, DoHelp(c, s, h), Help(h), t)
  {
    match h
    case Create(_) =>
    case Wake(_) =>
    case WakeReady(_) =>
    case WakePush(_) =>
    case WakeDecrease(_) =>
  }

  lemma BitsStep(c: Config, s: State, w: map<Ult, Place>, b: map<Pool, set<Ult>>, a: Action, t: Ult)
    requires Inv(c, s, w, b) && Enabled(c, s, a) && t in s.thread
    ensures BitsKept(s, Do(c, s, a), a, t)
  {
    match a
    case Own(e, o) =>
      if Partner(s, e, o).Some? {
        PartnerNotPast(c, s, w, b, e, o, Partner(s, e, o).value);
      }
      if o.End? {
        BitsEnd(s, e, s.es[e].u, a, t);
      } else {
        BitsOwn(c, s, e, o, t);
      }
    case Sched(e, d) => BitsSched(c, s, e, d, t);
    case Help(h) => BitsHelp(c, s, h, t);
  }

  /** The joiner's own steps, up to the one that sets the link. */
  lemma LinkingMoves(c: Config, s: State, e: Es, o: OwnStep, t: Ult)
    requires CanOwn(c, s, e, o) && Linking(s.thread[s.es[e].u].pc, t)
    ensures var (u, s') := (s.es[e].u, DoOwn(c, s, e, o));
      u in s'.thread && (Linking(s'.thread[u].pc, t) || (t in s'.thread && s'.thread[t].link == Some(u)))
  {
  }

  /** A ULT that is linking itself runs on an ES. */
  lemma LinkingRuns(c: Config, s: State, w: map<Ult, Place>, b: map<Pool, set<Ult>>, j: Ult, t: Ult) returns (e: Es)
    requires Inv(c, s, w, b) && j in s.thread && Linking(s.thread[j].pc, t)
    ensures e in s.es && s.es[e] == On(j) && j in c.home && j in w && w[j] == OnEs(e)
  {
    assert Ok(c, s, j, w[j]) && At(s, w, w[j], j);
    e := w[j].e;
  }

  lemma LinkingStays(c: Config, s: State, w: map<Ult, Place>, b: map<Pool, set<Ult>>, a: Action, j: Ult, t: Ult)
    requires Inv(c, s, w, b) && Enabled(c, s, a) && j in s.thread && Linking(s.thread[j].pc, t)
    ensures var s' := Do(c, s, a);
      j in s'.thread && (Linking(s'.thread[j].pc, t) || (t in s'.thread && s'.thread[t].link == Some(j)))
  {
    var d := LinkingRuns(c, s, w, b, j, t);
    if !Touches(s, a, j) {
      Untouched(c, s, a, j);
    } else {
      match a
      case Own(e, o) =>
        if s.es[e].u == j {
          LinkingMoves(c, s, e, o, t);
        } else {
          PartnerNotPast(c, s, w, b, e, o, j);
        }
      case Sched(e, o) =>
        Actor(c, s, w, b, e);
      case Help(h) => HelpsSleeper(c, s, w, b, h);
    }
  }

  lemma HelpedStep(c: Config, s: State, w: map<Ult, Place>, b: map<Pool, set<Ult>>, a: Action, t: Ult)
    requires Inv(c, s, w, b) && Enabled(c, s, a) && Helped(s, t)
    ensures Helped(Do(c, s, a), t)
  {
    var s' := Do(c, s, a);
    if t in s'.thread && s'.thread[t].pc.EndWait? {
      if t in s.thread {
        BitsStep(c, s, w, b, a, t);
      } else {
        NewUlt(c, s, w, b, a, t);
      }
    }
    if t in s'.thread && s'.thread[t].join && !Past(s'.thread[t]) && s'.thread[t].link.None? {
      if t !in s.thread {
        NewUlt(c, s, w, b, a, t);
      } else {
        BitsStep(c, s, w, b, a, t);
        if Gone(s, t) {
          GoneStays(c, s, w, b, a, t);
        } else if s.thread[t].join {
          LinkingStays(c, s, w, b, a, s.asked[t], t);
        }
      }
    }
  }

  // ----- whoever is in a join stays in it -----

  /** A ULT that is inside join and not back from waiting stays inside. */
  lemma StaysInside(c: Config, s: State, w: map<Ult, Place>, b: map<Pool, set<Ult>>, a: Action, j: Ult)
    requires Inv(c, s, w, b) && Enabled(c, s, a) && j in s.thread && Target(s.thread[j].pc).Some?
    ensures j in Do(c, s, a).thread && Joining(Do(c, s, a).thread[j].pc) == Target(s.thread[j].pc)
  {
    if !Touches(s, a, j) {
      Untouched(c, s, a, j);
    } else {
      match a
      case Own(e, o) =>
        if s.es[e].u == j {
          InsideSelf(c, s, e, o);
        } else {
          InsidePartner(c, s, w, b, e, o, j);
        }
      case Sched(e, d) =>
        Actor(c, s, w, b, e);
        InsideSched(c, s, e, d);
      case Help(h) => InsideHelp(c, s, h, j);
    }
  }

  lemma InsideSched(c: Config, s: State, e: Es, d: SchedStep)
    requires CanSched(c, s, e, d) && (d.Start? || d.Dispatch?) && s.es[e].u in s.thread && Target(s.thread[s.es[e].u].pc).Some?
    requires d.Start? ==> Fit(s, s.es[e].u)
    ensures var (u, s') := (s.es[e].u, DoSched(c, s, e, d));
      u in s'.thread && Joining(s'.thread[u].pc) == Target(s.thread[u].pc)
  {
    if d.Dispatch? {
      DispatchKeeps(s, e);
    }
  }

  lemma InsideHelp(c: Config, s: State, h: HelpStep, j: Ult)
    requires CanHelp(c, s, h) && j in s.thread
    ensures j in DoHelp(c, s, h).thread && DoHelp(c, s, h).thread[j].pc == s.thread[j].pc
  {
    match h
    case Create(_) =>
    case Wake(_) =>
    case WakeReady(_) =>
    case WakePush(_) =>
    case WakeDecrease(_) =>
  }

  lemma InsideSelf(c: Config, s: State, e: Es, o: OwnStep)
    requires CanOwn(c, s, e, o) && Target(s.thread[s.es[e].u].pc).Some?
    ensures var (u, s') := (s.es[e].u, DoOwn(c, s, e, o));
      u in s'.thread && Joining(s'.thread[u].pc) == Target(s.thread[u].pc)
  {
  }

  lemma InsidePartner(c: Config, s: State, w: map<Ult, Place>, b: map<Pool, set<Ult>>, e: Es, o: OwnStep, j: Ult)
    requires Inv(c, s, w, b) && CanOwn(c, s, e, o) && Partner(s, e, o) == Some(j)
    requires j in s.thread && Target(s.thread[j].pc).Some?
    ensures j in DoOwn(c, s, e, o).thread && Joining(DoOwn(c, s, e, o).thread[j].pc) == Target(s.thread[j].pc)
  {
    PartnerNotPast(c, s, w, b, e, o, j);
    PartnerIs(c, s, w, b, e, o, j);
    InsidePartnerStep(c, s, e, o, j);
  }

  lemma InsidePartnerStep(c: Config, s: State, e: Es, o: OwnStep, j: Ult)
    requires CanOwn(c, s, e, o) && Partner(s, e, o) == Some(j) && j in s.thread && j != s.es[e].u
    requires o.End? || o.EndWake? ==> Owed(s, j, s.es[e].u)
    requires o.DirectRemove? || o.DirectSwitch? ==> Fit(s, j)
    requires Target(s.thread[j].pc).Some?
    ensures j in DoOwn(c, s, e, o).thread && Joining(DoOwn(c, s, e, o).thread[j].pc) == Target(s.thread[j].pc)
  {
    if o.End? {
      if Jumps(s, s.es[e].u) {
      } else {
      }
    }
  }

  // ----- whole runs -----

  lemma StepKeepsJoins(c: Config, s: State, w: map<Ult, Place>, b: map<Pool, set<Ult>>, a: Action)
    requires Inv(c, s, w, b) && Enabled(c, s, a) && JoinInv(s)
    ensures JoinInv(Do(c, s, a))
  {
    forall j ensures JoinDone(Do(c, s, a), j) {
      DoneStep(c, s, w, b, a, j);
    }
    forall t ensures Helped(Do(c, s, a), t) {
      HelpedStep(c, s, w, b, a, t);
    }
  }

  lemma {:induction false} RunKeepsJoins(c: Config, s: State, acts: seq<Action>)
    returns (w: map<Ult, Place>, b: map<Pool, set<Ult>>)
    requires IsStart(s) && Run(c, s, acts).Some?
    ensures Inv(c, Run(c, s, acts).value, w, b) && JoinInv(Run(c, s, acts).value)
  {
    w, b := RunKeeps(c, s, acts);
    if acts != [] {
      var before := acts[..|acts| - 1];
      var w', b' := RunKeepsJoins(c, s, before);
      StepKeepsJoins(c, Run(c, s, before).value, w', b', acts[|acts| - 1]);
    }
  }

  /** The join that a step of ULT j begins. A join that finds JOIN set already polls instead. */
  function Begins(s: State, a: Action, j: Ult): Option<Ult> {
    match a
    case Own(e, JoinIndirect(t)) =>
      if e in s.es && s.es[e] == On(j) && t in s.thread && !s.thread[t].join then Some(t) else None
    case Own(e, JoinDirect(t)) => if e in s.es && s.es[e] == On(j) then Some(t) else None
    case _ => None
  }

  /** The target of the join that j began last. */
  function BegunJoin(c: Config, s: State, acts: seq<Action>, j: Ult): Option<Ult>
    requires Run(c, s, acts).Some?
  {
    if acts == [] then None
    else
      var before := acts[..|acts| - 1];
      var t := Begins(Run(c, s, before).value, acts[|acts| - 1], j);
      if t.Some? then t else BegunJoin(c, s, before, j)
  }

  lemma BeginsInside(c: Config, s: State, a: Action, j: Ult)
    requires Enabled(c, s, a) && Begins(s, a, j).Some?
    ensures j in Do(c, s, a).thread && Joining(Do(c, s, a).thread[j].pc) == Begins(s, a, j)
  {
  }

  /** Whoever began to join is still inside the join, or its target has terminated or got past waking it. */
  lemma {:induction false} JoinWaitsForEnd(c: Config, s: State, acts: seq<Action>, j: Ult)
    requires IsStart(s) && Run(c, s, acts).Some? && BegunJoin(c, s, acts, j).Some?
    ensures var (t, r) := (BegunJoin(c, s, acts, j).value, Run(c, s, acts).value);
      Gone(r, t) || (j in r.thread && Joining(r.thread[j].pc) == Some(t))
  {
    var (before, a) := (acts[..|acts| - 1], acts[|acts| - 1]);
    var r := Run(c, s, before).value;
    if Begins(r, a, j).Some? {
      BeginsInside(c, r, a, j);
    } else {
      JoinWaitsForEnd(c, s, before, j);
      var w, b := RunKeepsJoins(c, s, before);
      InsideOrGone(c, r, w, b, a, j, BegunJoin(c, s, before, j).value);
    }
  }

  lemma InsideOrGone(c: Config, s: State, w: map<Ult, Place>, b: map<Pool, set<Ult>>, a: Action, j: Ult, t: Ult)
    requires Inv(c, s, w, b) && JoinInv(s) && Enabled(c, s, a)
    requires Gone(s, t) || (j in s.thread && Joining(s.thread[j].pc) == Some(t))
    ensures var s' := Do(c, s, a); Gone(s', t) || (j in s'.thread && Joining(s'.thread[j].pc) == Some(t))
  {
    assert JoinDone(s, j);
    if Gone(s, t) {
      GoneStays(c, s, w, b, a, t);
    } else {
      StaysInside(c, s, w, b, a, j);
    }
  }

  /** A step that takes a ULT out of a join finds the target gone. */
  lemma LeavesWhenGone(c: Config, s: State, acts: seq<Action>, a: Action, j: Ult, t: Ult)
    requires IsStart(s) && Run(c, s, acts).Some? && Enabled(c, Run(c, s, acts).value, a)
    requires var r := Run(c, s, acts).value; j in r.thread && Joining(r.thread[j].pc) == Some(t)
    ensures var r' := Do(c, Run(c, s, acts).value, a);
      Gone(r', t) || (j in r'.thread && Joining(r'.thread[j].pc) == Some(t))
  {
    var w, b := RunKeepsJoins(c, s, acts);
    InsideOrGone(c, Run(c, s, acts).value, w, b, a, j, t);
  }

  /** A target that has found JOIN set and waits for its link is not let down: its joiner runs on an ES and can
      take its next step, which leads towards the link or sets it. */
  lemma EndWaitHasHelp(c: Config, s: State, acts: seq<Action>, t: Ult) returns (j: Ult, e: Es, o: OwnStep)
    requires IsStart(s) && Run(c, s, acts).Some? && t in Run(c, s, acts).value.thread
    requires var x := Run(c, s, acts).value.thread[t]; x.pc.EndWait? && x.link.None? && !x.life.Terminated?
    ensures var r := Run(c, s, acts).value;
      && t in r.asked && r.asked[t] == j && j in r.thread && Linking(r.thread[j].pc, t)
      && e in r.es && r.es[e] == On(j) && CanOwn(c, r, e, o)
      && var r' := Do(c, r, Own(e, o));
      && t in r'.thread && j in r'.thread
      && if r.thread[j].pc.SetLink? then r'.thread[t].link == Some(j) else Nearer(r.thread[j].pc, r'.thread[j].pc, t)
  {
    var w, b := RunKeepsJoins(c, s, acts);
    var r := Run(c, s, acts).value;
    assert Helped(r, t);
    j := r.asked[t];
    assert JoinerOk(r, j);
    e := LinkingRuns(c, r, w, b, j, t);
    o := if r.thread[j].pc.SetLink? then LinkTarget else Advance;
    JoinsOf(c, r, w, b, e);
    TakesLinkStep(c, r, e, o, t);
  }

  /** One step further on the way to the link. */
  predicate Nearer(pc: Pc, pc': Pc, t: Ult) {
    match pc
    case Request(_) => pc' == Mark(Some(t))
    case Mark(_) => pc' == Count(Some(t))
    case Count(_) => pc' == SetLink(t)
    case _ => false
  }

  lemma TakesLinkStep(c: Config, s: State, e: Es, o: OwnStep, t: Ult)
    requires Runs(c, s, e) && Linking(s.thread[s.es[e].u].pc, t) && t in s.thread && t != s.es[e].u
    requires o == if s.thread[s.es[e].u].pc.SetLink? then LinkTarget else Advance
    ensures CanOwn(c, s, e, o)
    ensures var (u, s') := (s.es[e].u, DoOwn(c, s, e, o));
      t in s'.thread && u in s'.thread &&
      if s.thread[u].pc.SetLink? then s'.thread[t].link == Some(u) else Nearer(s.thread[u].pc, s'.thread[u].pc, t)
  {
    if s.thread[s.es[e].u].pc.SetLink? {
      SetsLink(c, s, e, t);
    } else {
      ComesNearer(c, s, e, t);
    }
  }

  lemma NextOnWay(c: Config, s: State, x: Thread, t: Ult)
    requires Linking(x.pc, t) && !x.pc.SetLink?
    ensures CanAdvance(c, s, x.pc) && Nearer(x.pc, Advanced(x).pc, t)
  {
    match x.pc
    case Request(_) =>
    case Mark(_) =>
    case Count(_) =>
  }

  lemma AdvanceDoes(c: Config, s: State, e: Es)
    requires CanOwn(c, s, e, Advance)
    ensures var (u, s') := (s.es[e].u, DoOwn(c, s, e, Advance)); s'.thread == s.thread[u := Advanced(s.thread[u])]
  {
  }

  lemma ComesNearer(c: Config, s: State, e: Es, t: Ult)
    requires Runs(c, s, e) && Linking(s.thread[s.es[e].u].pc, t) && !s.thread[s.es[e].u].pc.SetLink?
    requires t in s.thread && t != s.es[e].u
    ensures CanOwn(c, s, e, Advance)
    ensures var (u, s') := (s.es[e].u, DoOwn(c, s, e, Advance));
      t in s'.thread && u in s'.thread && Nearer(s.thread[u].pc, s'.thread[u].pc, t)
  {
    NextOnWay(c, s, s.thread[s.es[e].u], t);
    AdvanceDoes(c, s, e);
  }

  lemma SetsLink(c: Config, s: State, e: Es, t: Ult)
    requires Runs(c, s, e) && s.thread[s.es[e].u].pc == SetLink(t) && t in s.thread && t != s.es[e].u
    ensures CanOwn(c, s, e, LinkTarget)
    ensures var (u, s') := (s.es[e].u, DoOwn(c, s, e, LinkTarget)); t in s'.thread && u in s'.thread && s'.thread[t].link == Some(u)
  {
  }

  // ----- blocking for something else -----

  /** u has begun to block and has not been woken since. */
  function Blocking(c: Config, s: State, acts: seq<Action>, u: Ult): bool
    requires Run(c, s, acts).Some?
  {
    acts != [] &&
    var (before, a) := (acts[..|acts| - 1], acts[|acts| - 1]);
    if a.Own? && a.o.Block? && Run(c, s, before).value.es[a.e].u == u then true
    else if a == Help(Wake(u)) then false
    else Blocking(c, s, before, u)
  }

  /** On its way to sleep, or asleep, and not woken. */
  predicate Sleeping(s: State, u: Ult) {
    u in s.thread && u !in s.wake &&
    var x := s.thread[u];
    x.pc == Mark(None) || ((x.pc == Count(None) || x.pc == Suspend(None) || x.pc == Asleep(None)) && x.life.Blocked?)
  }

  lemma SleepingStays(c: Config, s: State, w: map<Ult, Place>, b: map<Pool, set<Ult>>, a: Action, u: Ult)
    requires Inv(c, s, w, b) && Enabled(c, s, a) && Sleeping(s, u) && a != Help(Wake(u))
    ensures Sleeping(Do(c, s, a), u)
  {
    if !Touches(s, a, u) {
      Untouched(c, s, a, u);
    } else {
      match a
      case Own(e, o) =>
        if s.es[e].u == u {
          SleepingSelf(c, s, e, o);
        } else {
          PartnerNotPast(c, s, w, b, e, o, u);
          PartnerIs(c, s, w, b, e, o, u);
        }
      case Sched(e, d) =>
        Actor(c, s, w, b, e);
        if d.Dispatch? {
          DispatchKeeps(s, e);
        }
      case Help(h) => HelpsSleeper(c, s, w, b, h);
    }
  }

  lemma SleepingSelf(c: Config, s: State, e: Es, o: OwnStep)
    requires CanOwn(c, s, e, o) && Sleeping(s, s.es[e].u)
    ensures Sleeping(DoOwn(c, s, e, o), s.es[e].u)
  {
  }

  lemma BlockSleeps(c: Config, s: State, w: map<Ult, Place>, b: map<Pool, set<Ult>>, e: Es)
    requires Inv(c, s, w, b) && CanOwn(c, s, e, Block)
    ensures Sleeping(DoOwn(c, s, e, Block), s.es[e].u)
  {
    Actor(c, s, w, b, e);
  }

  /** Whoever blocks does not run again, nor enter a pool, before it is woken. */
  lemma {:induction false} SleepsUntilWoken(c: Config, s: State, acts: seq<Action>, u: Ult)
    requires IsStart(s) && Run(c, s, acts).Some? && Blocking(c, s, acts, u)
    ensures Sleeping(Run(c, s, acts).value, u)
  {
    var (before, a) := (acts[..|acts| - 1], acts[|acts| - 1]);
    var w, b := RunKeeps(c, s, before);
    var t := Run(c, s, before).value;
    if a.Own? && a.o.Block? && t.es[a.e].u == u {
      BlockSleeps(c, t, w, b, a.e);
    } else {
      SleepsUntilWoken(c, s, before, u);
      SleepingStays(c, t, w, b, a, u);
    }
  }

  // ----- a joiner on the same ES -----

  lemma JumpDoes(s: State, e: Es, u: Ult, j: Ult)
    requires u in s.thread && j in s.thread && u != j && s.thread[u].link == Some(j) && s.thread[u].last == s.thread[j].last
    ensures var t := DoEnd(s, e, u);
      && e in t.es && t.es[e] == On(j) && u in t.thread && t.thread[u].life.Terminated?
      && j in t.thread && t.thread[j] == s.thread[j].(pc := Landed(u)) && t.blocked == s.blocked
  {
    assert DoEnd(s, e, u) == DoJump(s, e, u, j);
  }

  /** The joiner j runs user code on e, counted as blocked once less than before. */
  predicate GoesOn(c: Config, s: State, t: State, e: Es, j: Ult) {
    && e in t.es && t.es[e] == On(j) && j in t.thread && t.thread[j].pc.Body? && t.thread[j].life.Running?
    && j in c.home && NumBlocked(t, c.home[j]) == NumBlocked(s, c.home[j]) - 1
  }

  lemma EndsInJoiner(c: Config, s: State, e: Es, j: Ult)
    requires CanOwn(c, s, e, End) && Owed(s, j, s.es[e].u) && j != s.es[e].u && j in c.home
    requires s.thread[s.es[e].u].link == Some(j) && s.thread[s.es[e].u].last == s.thread[j].last
    ensures var t := DoOwn(c, s, e, End);
      && e in t.es && t.es[e] == On(j) && s.es[e].u in t.thread && t.thread[s.es[e].u].life.Terminated?
      && CanOwn(c, t, e, Advance) && CanOwn(c, DoOwn(c, t, e, Advance), e, Advance)
      && GoesOn(c, s, DoOwn(c, DoOwn(c, t, e, Advance), e, Advance), e, j)
  {
    JumpDoes(s, e, s.es[e].u, j);
    Continues(c, DoEnd(s, e, s.es[e].u), e, j, s.es[e].u);
  }

  /** A ULT whose joiner last ran on its ES ends by going on as the joiner, there and then: it has terminated,
      and the joiner, which was blocked and in no pool, is inside join; two steps later it runs user code,
      counted as blocked no more. */
  lemma JoinerGoesOn(c: Config, s: State, acts: seq<Action>, r: State, e: Es, j: Ult)
    requires IsStart(s) && Run(c, s, acts) == Some(r) && CanOwn(c, r, e, End)
    requires var x := r.thread[r.es[e].u]; x.link == Some(j) && j in r.thread && x.last == r.thread[j].last
    ensures Times(r, Off, j) == 1
    ensures var t := DoOwn(c, r, e, End);
      && e in t.es && t.es[e] == On(j) && r.es[e].u in t.thread && t.thread[r.es[e].u].life.Terminated?
      && CanOwn(c, t, e, Advance) && CanOwn(c, DoOwn(c, t, e, Advance), e, Advance)
      && GoesOn(c, r, DoOwn(c, DoOwn(c, t, e, Advance), e, Advance), e, j)
  {
    var w, b := RunKeeps(c, s, acts);
    JoinerReady(c, r, w, b, e, j);
    EndsInJoiner(c, r, e, j);
  }

  lemma JoinerReady(c: Config, s: State, w: map<Ult, Place>, b: map<Pool, set<Ult>>, e: Es, j: Ult)
    requires Inv(c, s, w, b) && CanOwn(c, s, e, End) && s.thread[s.es[e].u].link == Some(j) && j in s.thread
    requires s.thread[s.es[e].u].last == s.thread[j].last
    ensures Times(s, Off, j) == 1 && Owed(s, j, s.es[e].u) && j != s.es[e].u && j in c.home
  {
    Actor(c, s, w, b, e);
    LinkedJoiner(c, s, w, b, e);
    assert At(s, w, Off, j);
  }

  lemma Continues(c: Config, s: State, e: Es, j: Ult, u: Ult)
    requires e in s.es && s.es[e] == On(j) && j in s.thread && j in c.home && s.thread[j].pc == Landed(u) && s.thread[j].life.Blocked?
    ensures CanOwn(c, s, e, Advance)
    ensures var t1 := DoOwn(c, s, e, Advance);
      && CanOwn(c, t1, e, Advance)
      && var t2 := DoOwn(c, t1, e, Advance);
      && e in t2.es && t2.es[e] == On(j) && j in t2.thread && t2.thread[j].pc.Body? && t2.thread[j].life.Running?
      && NumBlocked(t2, c.home[j]) == NumBlocked(s, c.home[j]) - 1
  {
    AdvanceDoes(c, s, e);
    var t1 := DoOwn(c, s, e, Advance);
    assert t1.thread[j] == s.thread[j].(life := Running, pc := Uncount);
    AdvanceDoes(c, t1, e);
  }

  /** Waking: a ULT that sleeps, and that its scheduler has dispatched, is in its pool after three steps of
      whoever wakes it, and the pool's count is right after a fourth. */
  lemma WakesIntoPool(c: Config, s: State, u: Ult)
    requires Enabled(c, s, Help(Wake(u))) && u in c.home && !s.thread[u].block
    ensures var s1 := Do(c, s, Help(Wake(u)));
      && Enabled(c, s1, Help(WakeReady(u)))
      && var s2 := Do(c, s1, Help(WakeReady(u)));
      && Enabled(c, s2, Help(WakePush(u)))
      && var s3 := Do(c, s2, Help(WakePush(u)));
      && u in Queue(s3, c.home[u]) && s3.thread[u].life.Ready? && Enabled(c, s3, Help(WakeDecrease(c.home[u])))
      && var s4 := Do(c, s3, Help(WakeDecrease(c.home[u])));
      && NumBlocked(s4, c.home[u]) == NumBlocked(s, c.home[u]) - 1 && s4.late == s3.late[c.home[u] := Late(s, c.home[u])]
  {
  }

  // ----- nobody is stuck -----

  /** While a ULT waits to take its target out of the pool, the target is there or about to be pushed. */
  predicate Reachable(c: Config, s: State, t: Ult) {
    t in c.home && (t in Queue(s, c.home[t]) || (t in s.thread && t in s.wake && s.wake[t].Push?))
  }

  predicate SpinOk(c: Config, s: State, j: Ult) {
    j in s.thread && s.thread[j].pc.JoinWait? ==> Reachable(c, s, s.thread[j].pc.t)
  }

  /** A READY ULT of a pool whose one consumer runs another ULT is in the pool, or about to be pushed. */
  lemma ReadyIsReachable(c: Config, s: State, w: map<Ult, Place>, b: map<Pool, set<Ult>>, e: Es, t: Ult)
    requires Inv(c, s, w, b) && CanOwn(c, s, e, JoinDirect(t))
    ensures Reachable(c, s, t)
  {
    Actor(c, s, w, b, e);
    assert Ok(c, s, t, w[t]) && At(s, w, w[t], t);
  }

  /** Nobody else takes the target away while its joiner runs on the one consumer of the pool. */
  lemma ReachableStays(c: Config, s: State, w: map<Ult, Place>, b: map<Pool, set<Ult>>, a: Action, e: Es, t: Ult)
    requires Inv(c, s, w, b) && Enabled(c, s, a) && Runs(c, s, e) && PcOn(s, e) == JoinWait(t) && Reachable(c, s, t)
    ensures Reachable(c, Do(c, s, a), t)
  {
    Actor(c, s, w, b, e);
    assert Direct(c, s.es[e].u, t);
    if t in Queue(s, c.home[t]) {
      InPoolStays(c, s, w, b, a, e, t);
    } else {
      PushStays(c, s, w, b, a, t);
    }
  }

  lemma InPoolStays(c: Config, s: State, w: map<Ult, Place>, b: map<Pool, set<Ult>>, a: Action, e: Es, t: Ult)
    requires Inv(c, s, w, b) && Enabled(c, s, a) && Runs(c, s, e) && PcOn(s, e) == JoinWait(t)
    requires t in c.home && t in Queue(s, c.home[t]) && c.home[t] in c.owner && c.owner[c.home[t]] == e
    ensures t in Queue(Do(c, s, a), c.home[t])
  {
    match a
    case Own(d, o) =>
      Actor(c, s, w, b, d);
      QueueOwn(c, s, d, o, c.home[t], t);
    case Sched(d, o) => QueueSched(c, s, d, o, c.home[t], t);
    case Help(h) => StopTest.QueueHelp(c, s, h, c.home[t], t);
  }

  lemma PushStays(c: Config, s: State, w: map<Ult, Place>, b: map<Pool, set<Ult>>, a: Action, t: Ult)
    requires Inv(c, s, w, b) && Enabled(c, s, a) && t in c.home && t in s.thread && t in s.wake && s.wake[t].Push?
    ensures Reachable(c, Do(c, s, a), t)
  {
    WokenIsOff(c, s, w, b, t);
    match a
    case Own(e, o) =>
      Actor(c, s, w, b, e);
      if Partner(s, e, o) == Some(t) {
        PartnerIs(c, s, w, b, e, o, t);
      }
      OwnFrame(c, s, e, o, t);
    case Sched(e, d) =>
      KnownSched(c, s, w, b, e, d, t);
    case Help(h) => PushHelp(c, s, h, t);
  }

  lemma PushHelp(c: Config, s: State, h: HelpStep, t: Ult)
    requires CanHelp(c, s, h) && t in c.home && t in s.thread && t in s.wake && s.wake[t].Push?
    ensures Reachable(c, DoHelp(c, s, h), t)
  {
    match h
    case Create(_) =>
    case Wake(_) =>
    case WakeReady(_) =>
    case WakePush(_) =>
    case WakeDecrease(_) =>
  }

  lemma SpinStep(c: Config, s: State, w: map<Ult, Place>, b: map<Pool, set<Ult>>, a: Action, j: Ult)
    requires Inv(c, s, w, b) && Enabled(c, s, a) && SpinOk(c, s, j)
    ensures SpinOk(c, Do(c, s, a), j)
  {
    var s' := Do(c, s, a);
    if j in s'.thread && s'.thread[j].pc.JoinWait? {
      if j in s.thread && s.thread[j].pc.JoinWait? {
        var e := WaiterRuns(c, s, w, b, j);
        if !(a.Own? && a.e == e) {
          SamePc(c, s, w, b, a, e, j);
        }
        ReachableStays(c, s, w, b, a, e, s.thread[j].pc.t);
      } else {
        NewWaiter(c, s, w, b, a, j);
      }
    }
  }

  lemma WaiterRuns(c: Config, s: State, w: map<Ult, Place>, b: map<Pool, set<Ult>>, j: Ult) returns (e: Es)
    requires Inv(c, s, w, b) && j in s.thread && s.thread[j].pc.JoinWait?
    ensures Runs(c, s, e) && s.es[e] == On(j) && PcOn(s, e) == s.thread[j].pc && j in w && w[j] == OnEs(e)
  {
    assert Ok(c, s, j, w[j]) && At(s, w, w[j], j);
    e := w[j].e;
  }

  lemma SamePc(c: Config, s: State, w: map<Ult, Place>, b: map<Pool, set<Ult>>, a: Action, e: Es, j: Ult)
    requires Inv(c, s, w, b) && Enabled(c, s, a) && Runs(c, s, e) && s.es[e] == On(j) && s.thread[j].pc.JoinWait?
    requires j in w && w[j] == OnEs(e) && !(a.Own? && a.e == e)
    ensures j in Do(c, s, a).thread && Do(c, s, a).thread[j].pc == s.thread[j].pc
  {
    if Touches(s, a, j) {
      match a
      case Own(d, o) =>
        Actor(c, s, w, b, d);
        PartnerNotPast(c, s, w, b, d, o, j);
      case Sched(d, o) => Actor(c, s, w, b, d);
      case Help(h) => InsideHelp(c, s, h, j);
    } else {
      Untouched(c, s, a, j);
    }
  }

  /** A ULT comes to wait for its target only by a step of its own. */
  lemma NewWaiter(c: Config, s: State, w: map<Ult, Place>, b: map<Pool, set<Ult>>, a: Action, j: Ult)
    requires Inv(c, s, w, b) && Enabled(c, s, a) && !(j in s.thread && s.thread[j].pc.JoinWait?)
    requires j in Do(c, s, a).thread && Do(c, s, a).thread[j].pc.JoinWait?
    ensures Reachable(c, Do(c, s, a), Do(c, s, a).thread[j].pc.t)
  {
    if j !in s.thread {
      NewUlt(c, s, w, b, a, j);
    } else if !Touches(s, a, j) {
      Untouched(c, s, a, j);
    } else {
      match a
      case Own(e, o) =>
        if s.es[e].u == j {
          NewWaiterSelf(c, s, w, b, e, o);
        } else {
          PartnerNotPast(c, s, w, b, e, o, j);
          PartnerIs(c, s, w, b, e, o, j);
          PartnerNoWaiter(c, s, e, o, j);
        }
      case Sched(e, d) =>
        Actor(c, s, w, b, e);
        if d.Dispatch? {
          DispatchKeeps(s, e);
        }
      case Help(h) => InsideHelp(c, s, h, j);
    }
  }

  lemma NewWaiterSelf(c: Config, s: State, w: map<Ult, Place>, b: map<Pool, set<Ult>>, e: Es, o: OwnStep)
    requires Inv(c, s, w, b) && CanOwn(c, s, e, o) && !PcOn(s, e).JoinWait?
    requires s.es[e].u in DoOwn(c, s, e, o).thread && DoOwn(c, s, e, o).thread[s.es[e].u].pc.JoinWait?
    ensures Reachable(c, DoOwn(c, s, e, o), DoOwn(c, s, e, o).thread[s.es[e].u].pc.t)
  {
    WaitsByDirect(c, s, e, o);
    ReadyIsReachable(c, s, w, b, e, o.t);
  }

  lemma WaitsByDirect(c: Config, s: State, e: Es, o: OwnStep)
    requires CanOwn(c, s, e, o) && !PcOn(s, e).JoinWait?
    requires s.es[e].u in DoOwn(c, s, e, o).thread && DoOwn(c, s, e, o).thread[s.es[e].u].pc.JoinWait?
    ensures o.JoinDirect? && DoOwn(c, s, e, o).thread[s.es[e].u].pc == JoinWait(o.t)
  {
    if o.Advance? {
      AdvanceDoes(c, s, e);
      AdvancedNoWait(s.thread[s.es[e].u]);
    } else if o.End? {
      EndNoWait(s, e, s.es[e].u);
    } else if !o.JoinDirect? {
      RestNoWait(c, s, e, o);
    }
  }

  lemma AdvancedNoWait(x: Thread)
    requires !x.pc.JoinWait?
    ensures !Advanced(x).pc.JoinWait?
  {
  }

  lemma EndNoWait(s: State, e: Es, u: Ult)
    requires u in s.thread && s.thread[u].pc.Body?
    ensures u in DoEnd(s, e, u).thread && !DoEnd(s, e, u).thread[u].pc.JoinWait?
  {
    if Jumps(s, u) {
    } else if s.thread[u].link.Some? {
    } else {
    }
  }

  lemma RestNoWait(c: Config, s: State, e: Es, o: OwnStep)
    requires CanOwn(c, s, e, o) && !o.Advance? && !o.End? && !o.JoinDirect? && !PcOn(s, e).JoinWait?
    ensures s.es[e].u in DoOwn(c, s, e, o).thread && !DoOwn(c, s, e, o).thread[s.es[e].u].pc.JoinWait?
  {
  }

  lemma PartnerNoWaiter(c: Config, s: State, e: Es, o: OwnStep, j: Ult)
    requires CanOwn(c, s, e, o) && Partner(s, e, o) == Some(j) && j in s.thread && j != s.es[e].u
    requires s.thread[j].pc.Body? || s.thread[j].pc.Asleep? || s.thread[j].pc.Suspend?
    ensures j in DoOwn(c, s, e, o).thread && !DoOwn(c, s, e, o).thread[j].pc.JoinWait?
  {
    if o.End? {
      if Jumps(s, s.es[e].u) {
      } else {
      }
    }
  }

  lemma {:induction false} RunSpins(c: Config, s: State, acts: seq<Action>, j: Ult)
    requires IsStart(s) && Run(c, s, acts).Some?
    ensures SpinOk(c, Run(c, s, acts).value, j)
  {
    if acts != [] {
      var before := acts[..|acts| - 1];
      var w, b := RunKeeps(c, s, before);
      RunSpins(c, s, before, j);
      SpinStep(c, Run(c, s, before).value, w, b, acts[|acts| - 1], j);
    }
  }

  /** What an ES can do next. User code may block, yield, end, and join any ULT that nobody has joined, the
      direct way if that one is READY in the same private pool. Only two waits may hold up a ULT that runs:
      for the link of a joiner, which EndWaitHasHelp is about, and for a target to be in its pool; that target
      is there, or the one who readies it can push it. */
  ghost predicate CanProceed(c: Config, s: State, e: Es)
    requires e in s.es
  {
    match s.es[e]
    case Idle => CanSched(c, s, e, Stop) && forall p, u :: MayPop(c, e, p) && u in Queue(s, p) ==> CanSched(c, s, e, Pop(p, u))
    case Stopped => true
    case Popped(_) => CanSched(c, s, e, Start)
    case Back(_) => CanSched(c, s, e, Dispatch)
    case Pushing(_) => CanSched(c, s, e, PushBack)
    case On(u) =>
      u in s.thread &&
      match s.thread[u].pc
      case Body =>
        && CanOwn(c, s, e, Block) && CanOwn(c, s, e, Leave) && CanOwn(c, s, e, End)
        && (forall t :: t in s.thread && t != u && t !in s.asked ==> CanOwn(c, s, e, JoinIndirect(t)))
        && (forall t :: t in s.thread && Direct(c, u, t) && t !in s.asked && s.thread[t].life.Ready? ==> CanOwn(c, s, e, JoinDirect(t)))
      case SetLink(_) => CanOwn(c, s, e, LinkTarget)
      case Suspend(_) => CanOwn(c, s, e, Leave)
      case EndSwitch => CanOwn(c, s, e, Leave)
      case JoinRemove(_) => CanOwn(c, s, e, DirectRemove)
      case JoinSwitch(_) => CanOwn(c, s, e, DirectSwitch)
      case EndWait => s.thread[u].link.Some? ==> CanOwn(c, s, e, EndWake)
      case JoinWait(t) => CanOwn(c, s, e, Advance) || CanHelp(c, s, WakePush(t))
      case _ => CanOwn(c, s, e, Advance)
  }

  lemma NobodyIsStuck(c: Config, s: State, acts: seq<Action>, r: State, e: Es)
    requires IsStart(s) && Run(c, s, acts) == Some(r) && e in r.es
    ensures CanProceed(c, r, e)
  {
    var w, b := RunKeeps(c, s, acts);
    if r.es[e].On? {
      RunSpins(c, s, acts, r.es[e].u);
    }
    Proceeds(c, r, w, b, e);
  }

  lemma Proceeds(c: Config, s: State, w: map<Ult, Place>, b: map<Pool, set<Ult>>, e: Es)
    requires Inv(c, s, w, b) && e in s.es && (s.es[e].On? ==> SpinOk(c, s, s.es[e].u))
    ensures CanProceed(c, s, e)
  {
    if !s.es[e].Idle? && !s.es[e].Stopped? {
      Actor(c, s, w, b, e);
      if s.es[e].On? {
        JoinsOf(c, s, w, b, e);
        assert RemoveOk(c, s, s.es[e].u) && JoinerOk(s, s.es[e].u);
        ProceedsOn(c, s, e);
      }
    }
  }

  lemma ProceedsOn(c: Config, s: State, e: Es)
    requires Runs(c, s, e) && Joins(c, s, s.es[e].u) && SpinOk(c, s, s.es[e].u)
    ensures CanProceed(c, s, e)
  {
  }
}
