/** The load state of one attachment bubble, in a list cell that may be recycled for another file. */
module UseAttachment {
  import opened Wrappers
  import opened Runs

  type Key = string

  /** `Ready` and `Failed` carry the key the file was opened under. */
  datatype Status = Idle | Loading | Ready(key: Key) | Failed(key: Key)

  /** An effect waiting to run, with what its render saw. */
  datatype Effect = Effect(key: Option<Key>, autoLoad: bool, idle: bool)

  /** The hook: the content last rendered, the state, the refs of the effect (`None` before its first run),
      the effect that is due, and the loads in flight by the key each was started for. */
  datatype Hook = Hook(content: Option<Key>, status: Status, prevKey: Option<Option<Key>>, prevAutoLoad: bool,
                       due: Option<Effect>, inFlight: multiset<Key>)

  datatype Event =
    | Render(content: Option<Key>, autoLoad: bool)
    | RunEffect
    | Load
    | Settle(key: Key, ok: bool)

  /** Mounted: the first render's effect is due. */
  function Mounted(key: Option<Key>, autoLoad: bool): Hook {
    Hook(key, Idle, None, autoLoad, Some(Effect(key, autoLoad, true)), multiset{})
  }

  predicate Enabled(h: Hook, e: Event) {
    match e
    case Render(_, _) => h.due.None?
    case RunEffect => h.due.Some?
    case Load => true
    case Settle(k, _) => k in h.inFlight
  }

  function StartLoad(h: Hook): Hook {
    if h.content.None? then h else h.(status := Loading, inFlight := h.inFlight + multiset{h.content.value})
  }

  function AfterEffect(h: Hook, eff: Effect): Hook {
    var keyChanged := h.prevKey != Some(eff.key);
    var autoLoadTurnedOn := !h.prevAutoLoad && eff.autoLoad;
    var seen := h.(prevKey := Some(eff.key), prevAutoLoad := eff.autoLoad, due := None);
    if keyChanged then
      var reset := seen.(status := Idle);
      if eff.key.Some? && eff.autoLoad then StartLoad(reset) else reset
    else if autoLoadTurnedOn && eff.key.Some? && eff.idle then StartLoad(seen)
    else seen
  }

  function Apply(h: Hook, e: Event): Hook
    requires Enabled(h, e)
  {
    match e
    case Render(key, autoLoad) =>
      var shown := h.(content := key);
      if Some(key) == h.prevKey && autoLoad == h.prevAutoLoad then shown
      else shown.(due := Some(Effect(key, autoLoad, h.status.Idle?)))
    case RunEffect => AfterEffect(h, h.due.value)
    case Load => StartLoad(h)
    case Settle(k, ok) =>
      var landed := h.(inFlight := h.inFlight - multiset{k});
      if h.content == Some(k) then landed.(status := if ok then Ready(k) else Failed(k)) else landed
  }

  ghost predicate StepTo(h: Hook, e: Event, h': Hook) {
    Enabled(h, e) && h' == Apply(h, e)
  }

  /** The due effect is about to reset the bubble for another file. */
  predicate Resetting(h: Hook) {
    h.due.Some? && h.prevKey != Some(h.content)
  }

  /** What is shown belongs to the content shown, unless a reset is due: a finished state is of its key, and
      a loading one has a load of that key in flight. */
  ghost predicate Inv(h: Hook) {
    && (h.due.None? ==> h.prevKey == Some(h.content))
    && (h.due.Some? ==> h.due.value.key == h.content)
    && (h.status.Ready? || h.status.Failed? ==> h.content == Some(h.status.key) || Resetting(h))
    && (h.status.Loading? ==> Resetting(h) || (h.content.Some? && h.content.value in h.inFlight))
  }

  lemma InvLoad(h: Hook)
    requires Inv(h)
    ensures Inv(StartLoad(h))
  {
  }

  lemma InvEffect(h: Hook)
    requires Inv(h) && h.due.Some?
    ensures Inv(AfterEffect(h, h.due.value))
  {
    var eff := h.due.value;
    var seen := h.(prevKey := Some(eff.key), prevAutoLoad := eff.autoLoad, due := None);
    if h.prevKey != Some(eff.key) {
      InvLoad(seen.(status := Idle));
    } else {
      InvLoad(seen);
    }
  }

  lemma InvSettle(h: Hook, k: Key, ok: bool)
    requires Inv(h) && k in h.inFlight
    ensures Inv(Apply(h, Settle(k, ok)))
  {
    var h' := Apply(h, Settle(k, ok));
    assert h.content != Some(k) && h.content.Some? && h.content.value in h.inFlight ==> h.content.value in h'.inFlight;
  }

  lemma InvStep(h: Hook, e: Event, h': Hook)
    requires Inv(h) && StepTo(h, e, h')
    ensures Inv(h')
  {
    match e
    case Render(_, _) =>
    case RunEffect => InvEffect(h);
    case Load => InvLoad(h);
    case Settle(k, ok) => InvSettle(h, k, ok);
  }

  /** In any run, once its effects have run, a bubble that is ready (or failed) shows the file opened under
      the key it displays, however often the cell was recycled meanwhile; and one that is loading has that
      file's load in flight, so it cannot stay loading. */
  lemma ShowsItsOwnFile(key: Option<Key>, autoLoad: bool, es: seq<Event>, h: Hook)
    requires Run(StepTo, Mounted(key, autoLoad), es, h) && h.due.None?
    ensures h.status.Ready? || h.status.Failed? ==> h.content == Some(h.status.key)
    ensures h.status.Loading? ==> h.content.Some? && h.content.value in h.inFlight
  {
    var step := StepTo;
    forall a: Hook, e: Event, b: Hook | Inv(a) && step(a, e, b) ensures Inv(b) {
      assert step(a, e, b) == StepTo(a, e, b);
      InvStep(a, e, b);
    }
    RunInduction(step, (s: Hook) => Inv(s), Mounted(key, autoLoad), es, h);
  }

  /** Turning autoLoad on or off never wipes a bubble: only an idle one starts to load. */
  lemma AutoLoadFlipKeepsTheBubble(h: Hook, autoLoad: bool)
    requires Inv(h) && h.due.None?
    ensures var shown := Apply(h, Render(h.content, autoLoad));
            var after := if shown.due.Some? then Apply(shown, RunEffect) else shown;
      after.status == if !h.prevAutoLoad && autoLoad && h.status.Idle? && h.content.Some? then Loading else h.status
  {
  }

  /** A load that ends lands on the bubble that still shows its file: ready if it worked, failed if not. Any other
      bubble stays as it is. */
  lemma SettledMeaning(h: Hook, k: Key, ok: bool)
    requires Enabled(h, Settle(k, ok))
    ensures var t := Apply(h, Settle(k, ok));
      && (h.content == Some(k) && ok ==> t.status == Ready(k)) && (h.content == Some(k) && !ok ==> t.status == Failed(k))
      && (h.content != Some(k) ==> t.status == h.status)
      && t.content == h.content && t.due == h.due && t.inFlight == h.inFlight - multiset{k}
  {
  }

  /** A load shows loading and starts for the file shown now; with none shown it does nothing. */
  lemma LoadMeaning(h: Hook)
    ensures var t := Apply(h, Load);
      if h.content == None then t == h
      else t.status == Loading && t.inFlight == h.inFlight + multiset{h.content.value} && t.content == h.content && t.due == h.due
  {
  }

  /** A bubble given another file forgets the last one, and loads at once where that is asked for. */
  lemma NewFileMeaning(h: Hook, key: Option<Key>, autoLoad: bool)
    requires Inv(h) && h.due.None? && key != h.content
    ensures Apply(h, Render(key, autoLoad)).due.Some?
    ensures var t := Apply(Apply(h, Render(key, autoLoad)), RunEffect);
      && t.content == key && t.due.None? && t.prevAutoLoad == autoLoad
      && (key != None && autoLoad ==> t.status == Loading && t.inFlight == h.inFlight + multiset{key.value})
      && (key == None || !autoLoad ==> t.status == Idle && t.inFlight == h.inFlight)
    ensures var t := Apply(Mounted(key, autoLoad), RunEffect);
      t.content == key && t.status == if key != None && autoLoad then Loading else Idle
  {
  }

  class AttachmentHook {
    var content: Option<Key>
    var status: Status
    var prevKey: Option<Option<Key>>
    var prevAutoLoad: bool
    var due: Option<Effect>
    var inFlight: multiset<Key>

    constructor (key: Option<Key>, autoLoad: bool)
      ensures State() == Mounted(key, autoLoad) && Inv(State())
    {
      content, status, prevKey, prevAutoLoad := key, Idle, None, autoLoad;
      due, inFlight := Some(Effect(key, autoLoad, true)), multiset{};
    }

    function State(): Hook
      reads this
    {
      Hook(content, status, prevKey, prevAutoLoad, due, inFlight)
    }

    method OnRender(key: Option<Key>, autoLoad: bool)
      requires due.None? && Inv(State())
      modifies this
      ensures State() == Apply(old(State()), Render(key, autoLoad)) && Inv(State())
    {
      InvStep(State(), Render(key, autoLoad), Apply(State(), Render(key, autoLoad)));
      content := key;
      if prevKey != Some(key) || prevAutoLoad != autoLoad {
        due := Some(Effect(key, autoLoad, status.Idle?));
      }
    }

    /** Start a download for what the bubble shows now. */
    method OnLoad()
      modifies `status, `inFlight
      ensures State() == StartLoad(old(State()))
    {
      if content.None? { return; }
      status := Loading;
      inFlight := inFlight + multiset{content.value};
    }

    /** A download started for `key` is over; only the file the bubble still shows may land. */
    method OnSettled(key: Key, ok: bool)
      requires key in inFlight && Inv(State())
      modifies `status, `inFlight
      ensures State() == Apply(old(State()), Settle(key, ok)) && Inv(State())
    {
      InvStep(State(), Settle(key, ok), Apply(State(), Settle(key, ok)));
      inFlight := inFlight - multiset{key};
      if content == Some(key) {
        status := if ok then Ready(key) else Failed(key);
      }
    }

    method OnEffect()
      requires due.Some? && Inv(State())
      modifies this
      ensures State() == Apply(old(State()), RunEffect) && Inv(State())
    {
      InvStep(State(), RunEffect, Apply(State(), RunEffect));
      var eff := due.value;
      var keyChanged := prevKey != Some(eff.key);
      var autoLoadTurnedOn := !prevAutoLoad && eff.autoLoad;
      prevKey, prevAutoLoad, due := Some(eff.key), eff.autoLoad, None;
      if keyChanged {
        status := Idle;
        if eff.key.Some? && eff.autoLoad { OnLoad(); }
        return;
      }
      if autoLoadTurnedOn && eff.key.Some? && eff.idle { OnLoad(); }
    }
  }
}
