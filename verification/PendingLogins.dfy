/**
 * Single-use logins: one alias whose login may be started, restarted and completed on any number of instances.
 * Each instance keeps its own copy of what it started; the shared service keeps one login for the alias. A step
 * ends at every await, and a call to the service may be lost on the way there or on the way back.
 */
module PendingLogins {
  import opened Options

  /** One started login: its state is drawn fresh, so it names the login and the instance that started it. */
  datatype Login = Login(id: nat, home: nat)

  /** An instance's copy; `shared` when the service is known to hold it too. */
  datatype Held = Held(login: Login, shared: bool)

  /** `shares` when the instance is configured with the service. */
  datatype Instance = Instance(held: Option<Held>, shares: bool)

  datatype Start =
    | Publishing(i: nat, login: Login, create: bool)
    | Keeping(i: nat, login: Login, shared: bool)
    | Started

  /** Which copy a completion took: the instance's own, or the service's. */
  datatype Source = Own | Service

  datatype Completion =
    | Asked(i: nat, paste: Option<Login>, own: Option<Held>)
    | Found(i: nat, paste: Option<Login>, login: Login, viaService: bool, shared: bool)
    | Claiming(paste: Option<Login>, login: Login, mine: bool)
    | Dropping(login: Login)
    | Won(paste: Option<Login>, login: Login, source: Source)
    | Lost

  datatype World = World(service: Option<Login>, instances: map<nat, Instance>, starts: map<nat, Start>,
                         completions: map<nat, Completion>, next: nat)

  datatype Call = Answered | LostRequest | LostReply

  datatype Step =
    | StartStep(k: nat, i: nat, create: bool)
    | PublishStep(k: nat, call: Call, full: bool)
    | KeepStep(k: nat)
    | AskStep(k: nat, i: nat, paste: Option<Login>)
    | LookupStep(k: nat, call: Call)
    | ClaimStep(k: nat)
    | RemoveStep(k: nat, call: Call)
    | DropStep(k: nat)                 // what was found has lapsed
    | QuitStep(k: nat)                 // no code in the paste
    | LapseStep                        // the service's login lapses
    | PruneStep(i: nat)                // an instance's copy lapses, or gives way

  function HeldBy(w: World, i: nat): Option<Held> {
    if i in w.instances then w.instances[i].held else None
  }

  predicate Holds(w: World, i: nat, login: Login) {
    HeldBy(w, i).Some? && HeldBy(w, i).value.login == login
  }

  predicate Shares(w: World, i: nat) {
    i in w.instances && w.instances[i].shares
  }

  function WithHeld(w: World, i: nat, held: Option<Held>): World {
    if i in w.instances then w.(instances := w.instances[i := w.instances[i].(held := held)]) else w
  }

  function WithStart(w: World, k: nat, s: Start): World {
    w.(starts := w.starts[k := s])
  }

  function WithCompletion(w: World, k: nat, c: Completion): World {
    w.(completions := w.completions[k := c])
  }

  function WithoutHeld(w: World, i: nat, login: Login): World {
    if Holds(w, i, login) then WithHeld(w, i, None) else w
  }

  /** Delete the service's login if it is this one. */
  function WithoutService(w: World, login: Login): World {
    if w.service == Some(login) then w.(service := None) else w
  }

  /**
   * Publish: kept here alone when not sharing or not answered; refused when the service is full or the alias is taken.
   */
  function Publish(w: World, k: nat, s: Start, call: Call, full: bool): World
    requires s.Publishing?
  {
    if !Shares(w, s.i) then WithStart(w, k, Keeping(s.i, s.login, false))
    else
      var stores := !call.LostRequest? && !full && !(s.create && w.service.Some?);
      var after := if stores then w.(service := Some(s.login)) else w;
      if !call.Answered? then WithStart(after, k, Keeping(s.i, s.login, false))
      else if stores then WithStart(after, k, Keeping(s.i, s.login, true))
      else WithStart(after, k, Started)
  }

  /** The service's answer when it gives one; this instance's copy when it does not, or was never published. */
  function Lookup(w: World, k: nat, c: Completion, call: Call): World
    requires c.Asked?
  {
    if Shares(w, c.i) && call.Answered? && w.service.Some? then
      WithCompletion(w, k, Found(c.i, c.paste, w.service.value, true, true))
    else if c.own.None? then WithCompletion(w, k, Lost)
    else if Shares(w, c.i) && call.Answered? && c.own.value.shared then
      WithCompletion(WithoutHeld(w, c.i, c.own.value.login), k, Lost)
    else WithCompletion(w, k, Found(c.i, c.paste, c.own.value.login, false, c.own.value.shared))
  }

  /**
   * Take this instance's copy if it still holds that very login; a published one must then be removed on the service.
   */
  function Claim(w: World, k: nat, c: Completion): World
    requires c.Found?
  {
    var mine := Holds(w, c.i, c.login);
    if c.paste.Some? && c.paste.value != c.login then WithCompletion(w, k, Lost)
    else if !c.viaService && !mine then WithCompletion(w, k, Lost)
    else
      var shared := c.viaService || (HeldBy(w, c.i).Some? && HeldBy(w, c.i).value.shared);
      var taken := WithoutHeld(w, c.i, c.login);
      if !Shares(w, c.i) || !shared then WithCompletion(taken, k, Won(c.paste, c.login, Own))
      else WithCompletion(taken, k, Claiming(c.paste, c.login, mine))
  }

  /** A definite answer decides; without one the claim stands for the caller that took a copy held here. */
  function RemoveClaimed(w: World, k: nat, c: Completion, call: Call): World
    requires c.Claiming?
  {
    var after := if call.LostRequest? then w else WithoutService(w, c.login);
    if call.Answered? then
      WithCompletion(after, k, if w.service == Some(c.login) then Won(c.paste, c.login, Service) else Lost)
    else WithCompletion(after, k, if c.mine then Won(c.paste, c.login, Own) else Lost)
  }

  function Drop(w: World, k: nat, c: Completion): World
    requires c.Found?
  {
    var dropped := WithoutHeld(w, c.i, c.login);
    WithCompletion(dropped, k, if Shares(w, c.i) && (c.viaService || c.shared) then Dropping(c.login) else Lost)
  }

  /** A step that is not enabled changes nothing. */
  function Do(w: World, s: Step): World {
    match s
    case StartStep(k, i, create) =>
      if k !in w.starts && i in w.instances
      then WithStart(w.(next := w.next + 1), k, Publishing(i, Login(w.next, i), create)) else w
    case PublishStep(k, call, full) =>
      if k in w.starts && w.starts[k].Publishing? then Publish(w, k, w.starts[k], call, full) else w
    case KeepStep(k) =>
      if k in w.starts && w.starts[k].Keeping? then
        var t := w.starts[k];
        WithStart(WithHeld(w, t.i, Some(Held(t.login, t.shared))), k, Started)
      else w
    case AskStep(k, i, paste) =>
      if k !in w.completions && i in w.instances then WithCompletion(w, k, Asked(i, paste, HeldBy(w, i))) else w
    case LookupStep(k, call) =>
      if k in w.completions && w.completions[k].Asked? then Lookup(w, k, w.completions[k], call) else w
    case ClaimStep(k) => if k in w.completions && w.completions[k].Found? then Claim(w, k, w.completions[k]) else w
    case RemoveStep(k, call) =>
      if k in w.completions && w.completions[k].Claiming? then RemoveClaimed(w, k, w.completions[k], call)
      else if k in w.completions && w.completions[k].Dropping? then
        WithCompletion(if call.LostRequest? then w else WithoutService(w, w.completions[k].login), k, Lost)
      else w
    case DropStep(k) => if k in w.completions && w.completions[k].Found? then Drop(w, k, w.completions[k]) else w
    case QuitStep(k) => if k in w.completions && w.completions[k].Found? then WithCompletion(w, k, Lost) else w
    case LapseStep => w.(service := None)
    case PruneStep(i) => WithHeld(w, i, None)
  }

  function Run(w: World, steps: seq<Step>): World {
    if steps == [] then w else Do(Run(w, steps[..|steps| - 1]), steps[|steps| - 1])
  }

  /** Instances just started: nothing pending anywhere. */
  predicate Initial(w: World) {
    && w.service.None? && w.starts == map[] && w.completions == map[]
    && forall i <- w.instances :: w.instances[i].held.None?
  }

  // What every step keeps.

  /** The login is still on its way to being kept, or, when `unpublished`, to being published. */
  predicate StartPending(s: Start, login: Login, unpublished: bool) {
    (s.Publishing? && s.login == login) || (!unpublished && s.Keeping? && s.login == login)
  }

  /** The login a completion is about. */
  function LoginOf(c: Completion): Option<Login> {
    match c
    case Asked(_, _, own) => if own.Some? then Some(own.value.login) else None
    case Lost => None
    case _ => Some(c.login)
  }

  /** The completion has taken the one copy the starting instance ever held. */
  predicate SpentOwn(c: Completion) {
    (c.Claiming? && c.mine) || (c.Won? && c.source.Own?)
  }

  /** The completion has removed the one copy the service ever held. */
  predicate SpentService(c: Completion) {
    c.Won? && c.source.Service?
  }

  ghost predicate StartsFit(w: World) {
    && (forall k <- w.starts :: !w.starts[k].Started? ==>
          w.starts[k].login.id < w.next && w.starts[k].login.home == w.starts[k].i && w.starts[k].i in w.instances)
    && (forall k, l | k in w.starts && l in w.starts && k != l ::
          !w.starts[k].Started? && !w.starts[l].Started? ==> w.starts[k].login != w.starts[l].login)
  }

  ghost predicate NoneStarting(w: World, login: Login, unpublished: bool) {
    forall k <- w.starts :: !StartPending(w.starts[k], login, unpublished)
  }

  ghost predicate CopiesFit(w: World) {
    && (w.service.Some? ==> w.service.value.id < w.next && NoneStarting(w, w.service.value, true))
    && (forall i <- w.instances :: w.instances[i].held.Some? ==>
          var login := w.instances[i].held.value.login;
          login.id < w.next && login.home == i && NoneStarting(w, login, false))
  }

  ghost predicate CompletionFits(w: World, c: Completion) {
    && (c.Asked? || c.Found? ==> c.i in w.instances)
    && (c.Found? && c.viaService ==> Shares(w, c.i))
    && (c.Won? || c.Claiming? ==> c.paste.None? || c.paste.value == c.login)
    && (LoginOf(c).Some? ==>
          var login := LoginOf(c).value;
          && login.id < w.next
          && NoneStarting(w, login, true)
          && (SpentOwn(c) ==> !Holds(w, login.home, login) && NoneStarting(w, login, false))
          && (SpentService(c) ==> w.service != Some(login)))
  }

  ghost predicate SpentOnce(w: World) {
    forall c, d | c in w.completions && d in w.completions && c != d
        && LoginOf(w.completions[c]) == LoginOf(w.completions[d]) ::
      && !(SpentOwn(w.completions[c]) && SpentOwn(w.completions[d]))
      && !(SpentService(w.completions[c]) && SpentService(w.completions[d]))
  }

  ghost predicate Fits(w: World) {
    StartsFit(w) && CopiesFit(w) && (forall c <- w.completions :: CompletionFits(w, w.completions[c])) && SpentOnce(w)
  }

  /** Less of everything: copies and starts only go, so what fitted still does. */
  ghost predicate Shrinks(w: World, v: World) {
    && v.next >= w.next && v.instances.Keys == w.instances.Keys
    && (forall i <- w.instances :: v.instances[i].shares == w.instances[i].shares
          && (v.instances[i].held.None? || v.instances[i].held == w.instances[i].held))
    && (v.service.None? || v.service == w.service)
    && v.starts.Keys == w.starts.Keys
    && (forall k <- w.starts :: v.starts[k].Started? || v.starts[k] == w.starts[k])
  }

  lemma FitsWhenShrunk(w: World, v: World, c: Completion)
    requires Shrinks(w, v) && CompletionFits(w, c)
    ensures CompletionFits(v, c)
  {
    if LoginOf(c).Some? {
      var login := LoginOf(c).value;
      NoneStartingWhenShrunk(w, v, login, true);
      if SpentOwn(c) { NoneStartingWhenShrunk(w, v, login, false); }
    }
  }

  lemma NoneStartingWhenShrunk(w: World, v: World, login: Login, unpublished: bool)
    requires Shrinks(w, v) && NoneStarting(w, login, unpublished)
    ensures NoneStarting(v, login, unpublished)
  {
  }

  lemma CopiesFitWhenShrunk(w: World, v: World)
    requires Shrinks(w, v) && StartsFit(w) && CopiesFit(w)
    ensures StartsFit(v) && CopiesFit(v)
  {
    if v.service.Some? { NoneStartingWhenShrunk(w, v, v.service.value, true); }
    forall i | i in v.instances && v.instances[i].held.Some?
      ensures v.instances[i].held.value.login.id < v.next && v.instances[i].held.value.login.home == i
      ensures NoneStarting(v, v.instances[i].held.value.login, false)
    {
      NoneStartingWhenShrunk(w, v, v.instances[i].held.value.login, false);
    }
  }

  /** A step that takes copies and moves one completion, which fits and shares nothing it has spent with another. */
  lemma CompletionMoves(w: World, v: World, k: nat, c: Completion)
    requires Fits(w) && Shrinks(w, v) && v.completions == w.completions
    requires CompletionFits(v, c)
    requires forall d <- w.completions :: d != k && LoginOf(w.completions[d]) == LoginOf(c) ==>
               && !(SpentOwn(w.completions[d]) && SpentOwn(c))
               && !(SpentService(w.completions[d]) && SpentService(c))
    ensures Fits(WithCompletion(v, k, c))
  {
    var u := WithCompletion(v, k, c);
    CopiesFitWhenShrunk(w, v);
    assert Shrinks(v, u);
    CopiesFitWhenShrunk(v, u);
    forall d | d in u.completions ensures CompletionFits(u, u.completions[d]) {
      if d != k { FitsWhenShrunk(w, v, u.completions[d]); }
      FitsWhenShrunk(v, u, u.completions[d]);
    }
  }

  lemma ShrinkKeeps(w: World, v: World)
    requires Fits(w) && Shrinks(w, v) && v.completions == w.completions
    ensures Fits(v)
  {
    CopiesFitWhenShrunk(w, v);
    forall d | d in v.completions ensures CompletionFits(v, v.completions[d]) {
      FitsWhenShrunk(w, v, v.completions[d]);
    }
  }

  lemma LookupKeeps(w: World, k: nat, call: Call)
    requires Fits(w) && k in w.completions && w.completions[k].Asked?
    ensures Fits(Lookup(w, k, w.completions[k], call))
  {
    var c := w.completions[k];
    assert CompletionFits(w, c) && Shrinks(w, w);
    if Shares(w, c.i) && call.Answered? && w.service.Some? {
      CompletionMoves(w, w, k, Found(c.i, c.paste, w.service.value, true, true));
    } else if c.own.None? {
      CompletionMoves(w, w, k, Lost);
    } else if Shares(w, c.i) && call.Answered? && c.own.value.shared {
      var v := WithoutHeld(w, c.i, c.own.value.login);
      assert Shrinks(w, v);
      hide Fits, CompletionFits;
      LostFits(v);
      CompletionMoves(w, v, k, Lost);
    } else {
      CompletionMoves(w, w, k, Found(c.i, c.paste, c.own.value.login, false, c.own.value.shared));
    }
  }

  lemma LostFits(w: World)
    ensures CompletionFits(w, Lost)
  {
  }

  /** Only the completion that took the copy has spent it: the copy was there, so no other had. */
  lemma TakenOnce(w: World, k: nat)
    requires Fits(w) && k in w.completions && w.completions[k].Found?
             && Holds(w, w.completions[k].i, w.completions[k].login)
    ensures var login := w.completions[k].login;
            && login.home == w.completions[k].i && NoneStarting(w, login, false)
            && forall d <- w.completions :: LoginOf(w.completions[d]) == Some(login) ==> !SpentOwn(w.completions[d])
  {
    var login := w.completions[k].login;
    forall d | d in w.completions && LoginOf(w.completions[d]) == Some(login) ensures !SpentOwn(w.completions[d]) {
      assert CompletionFits(w, w.completions[d]);
    }
  }

  lemma ClaimKeeps(w: World, k: nat)
    requires Fits(w) && k in w.completions && w.completions[k].Found?
    ensures Fits(Claim(w, k, w.completions[k]))
  {
    var c := w.completions[k];
    assert CompletionFits(w, c);
    var mine := Holds(w, c.i, c.login);
    assert Shrinks(w, w);
    CompletionMoves(w, w, k, Lost);
    if (c.paste.Some? && c.paste.value != c.login) || (!c.viaService && !mine) { return; }
    var v := WithoutHeld(w, c.i, c.login);
    assert Shrinks(w, v);
    FitsWhenShrunk(w, v, c);
    if mine {
      TakenOnce(w, k);
      NoneStartingWhenShrunk(w, v, c.login, false);
      CompletionMoves(w, v, k, Won(c.paste, c.login, Own));
    }
    CompletionMoves(w, v, k, Claiming(c.paste, c.login, mine));
  }

  lemma RemoveKeeps(w: World, k: nat, call: Call)
    requires Fits(w) && k in w.completions && w.completions[k].Claiming?
    ensures Fits(RemoveClaimed(w, k, w.completions[k], call))
  {
    var c := w.completions[k];
    assert CompletionFits(w, c);
    var v := if call.LostRequest? then w else WithoutService(w, c.login);
    assert Shrinks(w, v);
    FitsWhenShrunk(w, v, c);
    CompletionMoves(w, v, k, Lost);
    if c.mine { CompletionMoves(w, v, k, Won(c.paste, c.login, Own)); }
    if call.Answered? && w.service == Some(c.login) {
      forall d | d in w.completions && LoginOf(w.completions[d]) == Some(c.login)
          ensures !SpentService(w.completions[d]) {
        assert CompletionFits(w, w.completions[d]);
      }
      CompletionMoves(w, v, k, Won(c.paste, c.login, Service));
    }
  }

  lemma StartKeeps(w: World, k: nat, i: nat, create: bool)
    requires Fits(w) && k !in w.starts && i in w.instances
    ensures Fits(Do(w, StartStep(k, i, create)))
  {
    var v := Do(w, StartStep(k, i, create));
    forall login: Login, unpublished: bool | login.id < w.next && NoneStarting(w, login, unpublished)
      ensures NoneStarting(v, login, unpublished) {}
    forall d | d in v.completions ensures CompletionFits(v, v.completions[d]) {
      assert CompletionFits(w, w.completions[d]);
    }
  }

  lemma PublishShape(w: World, k: nat, call: Call, full: bool)
    requires Fits(w) && k in w.starts && w.starts[k].Publishing?
    ensures var s := w.starts[k]; var v := Publish(w, k, s, call, full);
            && v.next == w.next && v.instances == w.instances && v.completions == w.completions
            && (v.service == w.service || v.service == Some(s.login))
            && NoneStarting(v, s.login, true) && StartPending(s, s.login, true) && StartPending(s, s.login, false)
            && forall login: Login, unpublished: bool ::
                 login != s.login && NoneStarting(w, login, unpublished) ==> NoneStarting(v, login, unpublished)
  {
  }

  lemma PublishStarts(w: World, k: nat, call: Call, full: bool)
    requires Fits(w) && k in w.starts && w.starts[k].Publishing?
    ensures StartsFit(Publish(w, k, w.starts[k], call, full))
  {
  }

  /** Publishing spends nothing: the login has not been seen by any completion yet. */
  lemma PublishKeeps(w: World, k: nat, call: Call, full: bool)
    requires Fits(w) && k in w.starts && w.starts[k].Publishing?
    ensures Fits(Publish(w, k, w.starts[k], call, full))
  {
    var s := w.starts[k];
    var v := Publish(w, k, s, call, full);
    PublishShape(w, k, call, full);
    PublishStarts(w, k, call, full);
    assert s.login.id < w.next;
    hide Publish, StartPending, StartsFit;
    forall d | d in v.completions ensures CompletionFits(v, v.completions[d]) {
      assert CompletionFits(w, w.completions[d]);
      NotStartingWhile(w, k, true);
    }
    if w.service.Some? { NotStartingWhile(w, k, true); }
    NotStartingWhile(w, k, false);
  }

  lemma NotStartingWhile(w: World, k: nat, unpublished: bool)
    requires k in w.starts && w.starts[k].Publishing? && StartPending(w.starts[k], w.starts[k].login, unpublished)
    ensures !NoneStarting(w, w.starts[k].login, unpublished)
  {
  }

  lemma KeepKeeps(w: World, k: nat)
    requires Fits(w) && k in w.starts && w.starts[k].Keeping?
    ensures Fits(Do(w, KeepStep(k)))
  {
    var s := w.starts[k];
    var v := Do(w, KeepStep(k));
    forall login: Login, unpublished: bool | NoneStarting(w, login, unpublished)
        ensures NoneStarting(v, login, unpublished) {}
    assert NoneStarting(v, s.login, false);
    forall d | d in v.completions ensures CompletionFits(v, v.completions[d]) {
      assert CompletionFits(w, w.completions[d]);
      assert StartPending(s, s.login, false);
    }
  }

  lemma DoKeeps(w: World, s: Step)
    requires Fits(w)
    ensures Fits(Do(w, s))
  {
    hide Fits;
    match s
    case StartStep(k, i, create) => if k !in w.starts && i in w.instances { StartKeeps(w, k, i, create); }
    case PublishStep(k, call, full) => if k in w.starts && w.starts[k].Publishing? { PublishKeeps(w, k, call, full); }
    case KeepStep(k) => if k in w.starts && w.starts[k].Keeping? { KeepKeeps(w, k); }
    case AskStep(k, i, paste) => if k !in w.completions && i in w.instances { AskKeeps(w, k, i, paste); }
    case LookupStep(k, call) => if k in w.completions && w.completions[k].Asked? { LookupKeeps(w, k, call); }
    case ClaimStep(k) => if k in w.completions && w.completions[k].Found? { ClaimKeeps(w, k); }
    case RemoveStep(k, call) =>
      if k in w.completions && w.completions[k].Claiming? { RemoveKeeps(w, k, call); }
      else if k in w.completions && w.completions[k].Dropping? {
        CompletionMoves(w, if call.LostRequest? then w else WithoutService(w, w.completions[k].login), k, Lost);
      }
    case DropStep(k) => if k in w.completions && w.completions[k].Found? { DropKeeps(w, k); }
    case QuitStep(k) => if k in w.completions && w.completions[k].Found? { CompletionMoves(w, w, k, Lost); }
    case LapseStep => ShrinkKeeps(w, Do(w, s));
    case PruneStep(i) => ShrinkKeeps(w, Do(w, s));
  }

  lemma AskKeeps(w: World, k: nat, i: nat, paste: Option<Login>)
    requires Fits(w) && i in w.instances
    ensures Fits(WithCompletion(w, k, Asked(i, paste, HeldBy(w, i))))
  {
    CompletionMoves(w, w, k, Asked(i, paste, HeldBy(w, i)));
  }

  lemma DropKeeps(w: World, k: nat)
    requires Fits(w) && k in w.completions && w.completions[k].Found?
    ensures Fits(Drop(w, k, w.completions[k]))
  {
    var c := w.completions[k];
    assert CompletionFits(w, c);
    var v := WithoutHeld(w, c.i, c.login);
    assert Shrinks(w, v);
    FitsWhenShrunk(w, v, c);
    CompletionMoves(w, v, k, Dropping(c.login));
    CompletionMoves(w, v, k, Lost);
  }

  lemma {:induction false} RunKeeps(w: World, steps: seq<Step>)
    requires Fits(w)
    ensures Fits(Run(w, steps))
  {
    hide Fits;
    if steps != [] {
      RunKeeps(w, steps[..|steps| - 1]);
      DoKeeps(Run(w, steps[..|steps| - 1]), steps[|steps| - 1]);
    }
  }

  predicate Wins(w: World, k: nat, login: Login) {
    k in w.completions && w.completions[k].Won? && w.completions[k].login == login
  }

  /**
   * Over every interleaving, with any of its calls lost, a login is won at most twice, and only under its own state.
   */
  lemma AtMostTwoWin(w: World, steps: seq<Step>, a: nat, b: nat, c: nat, login: Login)
    requires Initial(w)
    requires a != b && b != c && a != c
    ensures var v := Run(w, steps); !(Wins(v, a, login) && Wins(v, b, login) && Wins(v, c, login))
    ensures var v := Run(w, steps);
            Wins(v, a, login) ==>
              login.id < v.next && (v.completions[a].paste.None? || v.completions[a].paste == Some(login))
  {
    RunKeeps(w, steps);
    var v := Run(w, steps);
    if a in v.completions { assert CompletionFits(v, v.completions[a]); }
  }

  // While the service answers every publication and removal, one copy of each login counts: the service's when its
  // instance shares.

  predicate AllAnswered(steps: seq<Step>) {
    forall s <- steps :: s.PublishStep? || s.RemoveStep? ==> s.call.Answered?
  }

  predicate OneCopyStart(w: World, s: Start) {
    match s
    case Publishing(i, login, _) => login.home == i
    case Keeping(i, login, shared) => login.home == i && shared == Shares(w, i)
    case Started => true
  }

  predicate OneCopyCompletion(w: World, c: Completion) {
    match c
    case Asked(i, _, own) => own.Some? ==> own.value.login.home == i && own.value.shared == Shares(w, i)
    case Found(i, _, login, viaService, shared) =>
      if viaService then Shares(w, login.home) && Shares(w, i) else login.home == i && shared == Shares(w, i)
    case Claiming(_, login, _) => Shares(w, login.home)
    case Won(_, login, source) => source.Service? == Shares(w, login.home)
    case _ => true
  }

  ghost predicate OneCopyCounts(w: World) {
    && (w.service.Some? ==> Shares(w, w.service.value.home))
    && (forall i <- w.instances :: w.instances[i].held.Some? ==>
          w.instances[i].held.value.login.home == i && w.instances[i].held.value.shared == w.instances[i].shares)
    && (forall k <- w.starts :: OneCopyStart(w, w.starts[k]))
    && (forall k <- w.completions :: OneCopyCompletion(w, w.completions[k]))
  }

  lemma SharesStays(w: World, s: Step)
    ensures forall i :: Shares(Do(w, s), i) == Shares(w, i)
  {
  }

  lemma StartsKeepOneCopy(w: World, s: Step)
    requires OneCopyCounts(w) && AllAnswered([s])
    requires s.StartStep? || s.PublishStep? || s.KeepStep? || s.LapseStep? || s.PruneStep?
    ensures OneCopyCounts(Do(w, s))
  {
    assert s in [s];
    var v := Do(w, s);
    SharesStays(w, s);
    StartsStayOneCopy(w, s);
    CopiesStayOne(w, s);
    assert forall c <- v.completions :: OneCopyCompletion(w, v.completions[c]);
    hide Do;
    forall c | c in v.completions ensures OneCopyCompletion(v, v.completions[c]) {
      assert OneCopyCompletion(w, v.completions[c]);
    }
    forall k | k in v.starts ensures OneCopyStart(v, v.starts[k]) {
      assert OneCopyStart(w, v.starts[k]);
    }
  }

  lemma StartsStayOneCopy(w: World, s: Step)
    requires OneCopyCounts(w) && (s.PublishStep? ==> s.call.Answered?)
    requires s.StartStep? || s.PublishStep? || s.KeepStep? || s.LapseStep? || s.PruneStep?
    ensures forall k <- Do(w, s).starts :: OneCopyStart(w, Do(w, s).starts[k])
  {
    forall k | k in Do(w, s).starts ensures OneCopyStart(w, Do(w, s).starts[k]) {
      assert k in w.starts ==> OneCopyStart(w, w.starts[k]);
    }
  }

  lemma CopiesStayOne(w: World, s: Step)
    requires OneCopyCounts(w) && (s.PublishStep? ==> s.call.Answered?)
    requires s.StartStep? || s.PublishStep? || s.KeepStep? || s.LapseStep? || s.PruneStep?
    ensures var v := Do(w, s);
            && (v.service.Some? ==> Shares(w, v.service.value.home))
            && (forall i <- v.instances :: v.instances[i].held.Some? ==>
                  && v.instances[i].held.value.login.home == i
                  && v.instances[i].held.value.shared == v.instances[i].shares)
  {
    if s.PublishStep? || s.KeepStep? { assert s.k in w.starts ==> OneCopyStart(w, w.starts[s.k]); }
  }

  lemma OneCopyMoves(w: World, v: World, k: nat, c: Completion)
    requires OneCopyCounts(w) && Shrinks(w, v) && v.completions == w.completions && OneCopyCompletion(w, c)
    ensures OneCopyCounts(WithCompletion(v, k, c))
  {
    var u := WithCompletion(v, k, c);
    assert forall i :: Shares(u, i) == Shares(w, i);
    forall l | l in u.starts ensures OneCopyStart(u, u.starts[l]) {
      assert OneCopyStart(w, w.starts[l]);
    }
    forall d | d in u.completions ensures OneCopyCompletion(u, u.completions[d]) {
      assert d == k || OneCopyCompletion(w, w.completions[d]);
    }
  }

  lemma LookupKeepsOneCopy(w: World, k: nat, call: Call)
    requires OneCopyCounts(w) && k in w.completions && w.completions[k].Asked?
    ensures OneCopyCounts(Lookup(w, k, w.completions[k], call))
  {
    var c := w.completions[k];
    assert OneCopyCompletion(w, c);
    if Shares(w, c.i) && call.Answered? && w.service.Some? {
      OneCopyMoves(w, w, k, Found(c.i, c.paste, w.service.value, true, true));
    } else if c.own.None? {
      OneCopyMoves(w, w, k, Lost);
    } else if Shares(w, c.i) && call.Answered? && c.own.value.shared {
      OneCopyMoves(w, WithoutHeld(w, c.i, c.own.value.login), k, Lost);
    } else {
      OneCopyMoves(w, w, k, Found(c.i, c.paste, c.own.value.login, false, c.own.value.shared));
    }
  }

  lemma ClaimKeepsOneCopy(w: World, k: nat)
    requires OneCopyCounts(w) && k in w.completions && w.completions[k].Found?
    ensures OneCopyCounts(Claim(w, k, w.completions[k]))
  {
    var c := w.completions[k];
    assert OneCopyCompletion(w, c);
    var mine := Holds(w, c.i, c.login);
    if (c.paste.None? || c.paste.value == c.login) && (c.viaService || mine) {
      if Shares(w, c.i) {
        OneCopyMoves(w, WithoutHeld(w, c.i, c.login), k, Claiming(c.paste, c.login, mine));
      } else {
        OneCopyMoves(w, WithoutHeld(w, c.i, c.login), k, Won(c.paste, c.login, Own));
      }
    } else {
      OneCopyMoves(w, w, k, Lost);
    }
  }

  lemma RemoveKeepsOneCopy(w: World, k: nat)
    requires OneCopyCounts(w) && k in w.completions && w.completions[k].Claiming?
    ensures OneCopyCounts(RemoveClaimed(w, k, w.completions[k], Answered))
  {
    var c := w.completions[k];
    assert OneCopyCompletion(w, c);
    OneCopyMoves(w, WithoutService(w, c.login), k, if w.service == Some(c.login) then Won(c.paste, c.login, Service)
        else Lost);
  }

  lemma CompletionsKeepOneCopy(w: World, s: Step)
    requires OneCopyCounts(w) && AllAnswered([s])
    requires s.AskStep? || s.LookupStep? || s.ClaimStep? || s.RemoveStep? || s.DropStep? || s.QuitStep?
    ensures OneCopyCounts(Do(w, s))
  {
    assert s in [s];
    if s.AskStep? && s.k !in w.completions && s.i in w.instances {
      OneCopyMoves(w, w, s.k, Asked(s.i, s.paste, HeldBy(w, s.i)));
    } else if !s.AskStep? && s.k in w.completions {
      OneCopyMoves(w, w, s.k, Lost);
      var c := w.completions[s.k];
      if s.LookupStep? && c.Asked? {
        LookupKeepsOneCopy(w, s.k, s.call);
      } else if s.ClaimStep? && c.Found? {
        ClaimKeepsOneCopy(w, s.k);
      } else if s.RemoveStep? && c.Claiming? {
        RemoveKeepsOneCopy(w, s.k);
      } else if s.RemoveStep? && c.Dropping? {
        OneCopyMoves(w, WithoutService(w, c.login), s.k, Lost);
      } else if s.DropStep? && c.Found? {
        OneCopyMoves(w, WithoutHeld(w, c.i, c.login), s.k, Lost);
        OneCopyMoves(w, WithoutHeld(w, c.i, c.login), s.k, Dropping(c.login));
      }
    }
  }

  lemma DoKeepsOneCopy(w: World, s: Step)
    requires OneCopyCounts(w) && AllAnswered([s])
    ensures OneCopyCounts(Do(w, s))
  {
    hide OneCopyCounts, AllAnswered, Do;
    if s.StartStep? || s.PublishStep? || s.KeepStep? || s.LapseStep? || s.PruneStep? {
      StartsKeepOneCopy(w, s);
    } else {
      CompletionsKeepOneCopy(w, s);
    }
  }

  lemma {:induction false} AnsweredRunKeepsOneCopy(w: World, steps: seq<Step>)
    requires OneCopyCounts(w) && AllAnswered(steps)
    ensures OneCopyCounts(Run(w, steps))
  {
    hide OneCopyCounts;
    if steps != [] {
      AnsweredRunKeepsOneCopy(w, steps[..|steps| - 1]);
      DoKeepsOneCopy(Run(w, steps[..|steps| - 1]), steps[|steps| - 1]);
    }
  }

  /**
   * While the service answers every publication and every removal, a login is won at most once, whatever starts,
   * restarts and completions interleave and whichever lookups are lost.
   */
  lemma AtMostOneWins(w: World, steps: seq<Step>, a: nat, b: nat, login: Login)
    requires Initial(w) && a != b && AllAnswered(steps)
    ensures var v := Run(w, steps); !(Wins(v, a, login) && Wins(v, b, login))
  {
    RunKeeps(w, steps);
    AnsweredRunKeepsOneCopy(w, steps);
  }

  lemma RunOneMore(w: World, steps: seq<Step>, s: Step)
    ensures Run(w, steps + [s]) == Do(Run(w, steps), s)
  {
    assert (steps + [s])[..|steps|] == steps;
  }

  /** Started, published and kept on instance 0. */
  lemma OneStarts(w: World) returns (steps: seq<Step>)
    requires w == World(None, map[0 := Instance(None, true), 1 := Instance(None, true)], map[], map[], 0)
    ensures var v := Run(w, steps);
            && v.service == Some(Login(0, 0)) && v.instances.Keys == {0, 1} && v.completions == map[]
            && v.instances[0] == Instance(Some(Held(Login(0, 0), true)), true) && v.instances[1] == Instance(None, true)
  {
    var s := [StartStep(0, 0, false), PublishStep(0, Answered, false), KeepStep(0)];
    steps := [];
    RunOneMore(w, steps, s[0]); steps := steps + [s[0]];
    RunOneMore(w, steps, s[1]); steps := steps + [s[1]];
    RunOneMore(w, steps, s[2]); steps := steps + [s[2]];
  }

  /** Then looked for by two completions, one there and one on instance 1. */
  lemma TwoAsk(w: World) returns (steps: seq<Step>)
    requires w == World(None, map[0 := Instance(None, true), 1 := Instance(None, true)], map[], map[], 0)
    ensures BothAsked(Run(w, steps)) && !Holds(Run(w, steps), 1, Login(0, 0))
  {
    steps := OneStarts(w);
    hide Run;
    RunOneMore(w, steps, AskStep(0, 0, None)); steps := steps + [AskStep(0, 0, None)];
    RunOneMore(w, steps, AskStep(1, 1, None)); steps := steps + [AskStep(1, 1, None)];
  }

  predicate BothAsked(v: World) {
    && v.service == Some(Login(0, 0)) && Holds(v, 0, Login(0, 0)) && Shares(v, 0) && Shares(v, 1) && 0 in v.completions
    && 1 in v.completions && v.completions[0].Asked? && v.completions[0].i == 0 && v.completions[0].paste.None?
    && v.completions[1] == Asked(1, None, None)
  }

  predicate BothFound(v: World) {
    && v.service == Some(Login(0, 0)) && Holds(v, 0, Login(0, 0)) && !Holds(v, 1, Login(0, 0)) && Shares(v, 0)
          && Shares(v, 1)
    && 0 in v.completions && v.completions[0] == Found(0, None, Login(0, 0), true, true)
    && 1 in v.completions && v.completions[1] == Found(1, None, Login(0, 0), true, true)
  }

  /** Both found the login on the service and claim it; only the one on instance 0 holds a copy. */
  lemma TwoClaim(w: World, asked: seq<Step>) returns (steps: seq<Step>)
    requires BothAsked(Run(w, asked)) && !Holds(Run(w, asked), 1, Login(0, 0))
    ensures var v := Run(w, steps);
            && v.service == Some(Login(0, 0))
            && 0 in v.completions && v.completions[0] == Claiming(None, Login(0, 0), true)
            && 1 in v.completions && v.completions[1] == Claiming(None, Login(0, 0), false)
  {
    hide Run;
    steps := asked;
    RunOneMore(w, steps, LookupStep(0, Answered)); steps := steps + [LookupStep(0, Answered)];
    RunOneMore(w, steps, LookupStep(1, Answered)); steps := steps + [LookupStep(1, Answered)];
    var v := Run(w, steps);
    assert BothFound(v);
    ClaimBoth(v);
    hide Do;
    RunOneMore(w, steps, ClaimStep(0)); steps := steps + [ClaimStep(0)];
    RunOneMore(w, steps, ClaimStep(1)); steps := steps + [ClaimStep(1)];
  }

  lemma ClaimBoth(v: World)
    requires BothFound(v)
    ensures var u := Do(Do(v, ClaimStep(0)), ClaimStep(1));
            && u.service == Some(Login(0, 0))
            && 0 in u.completions && u.completions[0] == Claiming(None, Login(0, 0), true)
            && 1 in u.completions && u.completions[1] == Claiming(None, Login(0, 0), false)
  {
  }

  /**
   * The bound of two is met: the claim that took the kept copy loses its call, and the service's copy is won elsewhere.
   */
  lemma TwoCanWin() returns (w: World, steps: seq<Step>)
    ensures Initial(w) && Wins(Run(w, steps), 0, Login(0, 0)) && Wins(Run(w, steps), 1, Login(0, 0))
  {
    w := World(None, map[0 := Instance(None, true), 1 := Instance(None, true)], map[], map[], 0);
    steps := TwoAsk(w);
    steps := TwoClaim(w, steps);
    hide Run;
    RunOneMore(w, steps, RemoveStep(0, LostRequest)); steps := steps + [RemoveStep(0, LostRequest)];
    RunOneMore(w, steps, RemoveStep(1, Answered)); steps := steps + [RemoveStep(1, Answered)];
  }

  /**
   * A completion touches nothing but the login it found: what it deletes, here or on the service, has that very
   * state, so a login started since is left for its own paste.
   */
  lemma CompletionsSpareOthers(w: World, s: Step, login: Login)
    requires s.LookupStep? || s.ClaimStep? || s.RemoveStep? || s.DropStep? || s.QuitStep?
    requires s.k in w.completions && LoginOf(w.completions[s.k]) != Some(login)
    ensures w.service == Some(login) ==> Do(w, s).service == Some(login)
    ensures forall i :: Holds(w, i, login) ==> Holds(Do(w, s), i, login)
  {
  }

  /**
   * And a pending login can be completed anywhere: on any instance that shares, an undisturbed completion of the
   * login the service holds, with no pasted state or that login's, wins it and leaves it nowhere.
   */
  lemma PublishedLoginCompletes(w: World, k: nat, i: nat, login: Login, paste: Option<Login>)
    requires w.service == Some(login) && Shares(w, i) && k !in w.completions && (paste.None? || paste == Some(login))
    ensures var v := Do(Do(Do(Do(w, AskStep(k, i, paste)), LookupStep(k, Answered)), ClaimStep(k)),
            RemoveStep(k, Answered));
            Wins(v, k, login) && v.service.None? && !Holds(v, i, login)
  {
    var w1 := Do(w, AskStep(k, i, paste));
    var w2 := Do(w1, LookupStep(k, Answered));
    assert w2.completions[k] == Found(i, paste, login, true, true) && w2.instances == w.instances
           && w2.service == w.service;
    var w3 := Do(w2, ClaimStep(k));
    assert w3.completions[k].Claiming? && w3.completions[k].login == login && w3.service == w.service;
  }

  /** A login kept on one instance alone, never published, completes there. */
  lemma UnpublishedLoginCompletes(w: World, k: nat, i: nat, login: Login)
    requires HeldBy(w, i) == Some(Held(login, false)) && w.service.None? && k !in w.completions
    ensures var v := Do(Do(Do(w, AskStep(k, i, None)), LookupStep(k, Answered)), ClaimStep(k));
            Wins(v, k, login) && !Holds(v, i, login)
  {
    var w1 := Do(w, AskStep(k, i, None));
    var w2 := Do(w1, LookupStep(k, Answered));
    assert w2.completions[k] == Found(i, None, login, false, false) && w2.instances == w.instances;
  }

  // What a publication does to what was there.

  /** A login started under a name of its own never takes the place of one the service holds, and is not started. */
  lemma CreateNeverReplaces(w: World, k: nat, call: Call, full: bool)
    requires k in w.starts && w.starts[k].Publishing? && w.starts[k].create && Shares(w, w.starts[k].i)
    requires w.service.Some?
    ensures var v := Do(w, PublishStep(k, call, full));
            v.service == w.service && (call.Answered? ==> v.starts[k].Started?)
  {
  }

  /**
   * Any other takes it, when there is room and the call arrives; and is kept here too exactly when it was stored, or
   * the answer did not come.
   */
  lemma StartReplaces(w: World, k: nat, call: Call, full: bool)
    requires k in w.starts && w.starts[k].Publishing? && Shares(w, w.starts[k].i)
    requires !w.starts[k].create || w.service.None?
    ensures var s, v := w.starts[k], Do(w, PublishStep(k, call, full));
            && v.service == (if full || call.LostRequest? then w.service else Some(s.login))
            && (v.starts[k].Keeping? <==> !full || !call.Answered?)
            && (v.starts[k].Keeping? ==> v.starts[k].login == s.login && (v.starts[k].shared <==> call.Answered?))
  {
  }

  // What completes nothing.

  /** A sharing instance whose lookup is not answered goes on with its own copy, if it has one. */
  lemma UnansweredFallsBack(w: World, k: nat, call: Call)
    requires k in w.completions && w.completions[k].Asked? && !call.Answered?
    ensures var c, v := w.completions[k], Do(w, LookupStep(k, call));
            && v.completions[k] == (if c.own.None? then Lost
                                    else Found(c.i, c.paste, c.own.value.login, false, c.own.value.shared))
            && v.service == w.service && v.instances == w.instances
  {
  }

  /** A copy the service is known to hold too is won only by asking the service. */
  lemma SharedIsAskedFor(w: World, k: nat)
    requires k in w.completions && w.completions[k].Found? && Shares(w, w.completions[k].i)
    requires var c := w.completions[k];
             c.viaService || (HeldBy(w, c.i).Some? && HeldBy(w, c.i).value.shared)
    ensures !Do(w, ClaimStep(k)).completions[k].Won?
  {
  }

  /**
   * A login that has lapsed when it is found is dropped here, and on the service when it is held there too; it is won
   * by no one and nothing else is touched.
   */
  lemma LapsedIsDropped(w: World, k: nat)
    requires k in w.completions && w.completions[k].Found?
    ensures var c, v := w.completions[k], Do(Do(w, DropStep(k)), RemoveStep(k, Answered));
            && !Holds(v, c.i, c.login) && v.completions[k] == Lost
            && (Shares(w, c.i) && (c.viaService || c.shared) ==> v.service != Some(c.login))
            && (!Shares(w, c.i) || (!c.viaService && !c.shared) ==> v.service == w.service)
            && (w.service != Some(c.login) ==> v.service == w.service)
            && (forall j <- w.instances :: j != c.i ==> j in v.instances && v.instances[j] == w.instances[j])
  {
  }

  /** A paste without a code ends the completion and leaves the login for the next; a lapse leaves the service empty. */
  lemma QuitAndLapse(w: World, k: nat)
    requires k in w.completions && w.completions[k].Found?
    ensures Do(w, QuitStep(k)) == w.(completions := w.completions[k := Lost])
    ensures Do(w, LapseStep) == w.(service := None)
  {
  }
}
