/**
 LTPA session authentication. `LtpaAuthenticator` is the shared object; each of its methods
 is one region held under its mutex. `System` interleaves any number of requests over those
 regions, following roundTripWithReauth: log in when there is no session, send, and on the
 "token failed verification" 401 log in once more and send again.
 */
module Ltpa {
  import opened Options

  type Cookies = seq<string>

  /* ---------- the login call ---------- */

  datatype LoginReply =
    | LoginNetError
    | LoginHttp(status: int, cookies: Cookies)

  datatype LoginResult = LoggedIn(cookies: Cookies) | LoginTransient | LoginTerminal

  // Only a 200 or 204 that carries a cookie is a session.
  function DoLogin(r: LoginReply): (out: LoginResult)
    ensures out.LoggedIn? ==> out.cookies != []
    ensures out.LoggedIn? <==> r.LoginHttp? && (r.status == 200 || r.status == 204) && r.cookies != []
    ensures out.LoginTransient? <==> r.LoginNetError? || r.status >= 500
  {
    match r
    case LoginNetError => LoginTransient
    case LoginHttp(status, cookies) =>
      if status == 200 || status == 204 then (if cookies == [] then LoginTerminal else LoggedIn(cookies))
      else if status == 401 || status == 403 then LoginTerminal
      else if status >= 500 then LoginTransient
      else LoginTerminal
  }

  /* ---------- the shared session ---------- */

  datatype Session = Session(cookies: Cookies, gen: nat)

  predicate HasSession(s: Session) {
    s.cookies != []
  }

  predicate MustLogIn(s: Session, seen: nat) {
    s.gen == seen
  }

  // The locked region of reauthenticate: the session it leaves, whether the login endpoint
  // was contacted, and whether an error is returned.
  datatype Reauthed = Reauthed(session: Session, called: bool, failed: bool)

  function Reauth(s: Session, seen: nat, reply: LoginReply): Reauthed {
    if !MustLogIn(s, seen) then Reauthed(s, false, false)
    else match DoLogin(reply)
      case LoggedIn(cookies) => Reauthed(Session(cookies, s.gen + 1), true, false)
      case _ => Reauthed(s, true, true)
  }

  // One entry into that region: the generation then current, the token, and what the login
  // endpoint would answer. It is contacted only if nobody has logged in since the token.
  datatype Try = Try(current: nat, seen: nat, reply: LoginReply)

  predicate Contacts(t: Try) {
    t.current == t.seen
  }

  predicate Fails(t: Try) {
    Contacts(t) && !(t.reply.LoginHttp? && (t.reply.status == 200 || t.reply.status == 204) && t.reply.cookies != [])
  }

  function Contacted(t: Option<Try>): nat {
    if t.Some? && Contacts(t.value) then 1 else 0
  }

  /* ---------- requests interleaved over it ---------- */

  // `at` is the generation current when the cookies were attached.
  datatype Pc =
    | Idle
    | NeedsSession(seen: nat)
    | ReadsToken
    | Sends(seen: nat, second: bool)
    | OnWire(seen: nat, second: bool, sent: Cookies, at: nat)
    | Rejected(seen: nat, sent: Cookies, at: nat)

  datatype Request = Request(pc: Pc, logins: nat, trips: nat)

  // The history of successful logins: the token each was asked for, and what it installed.
  datatype Login = Login(token: nat, cookies: Cookies)

  datatype System = System(session: Session, history: seq<Login>, requests: map<nat, Request>)

  // Answered: whatever ends the trip, a response or an error, but a rejected token.
  datatype Answer = Retried | Answered | TokenRejected

  datatype Action =
    | Begin(r: nat)                          // ensureLoggedIn, first region
    | FirstLogin(r: nat, reply: LoginReply)  // ensureLoggedIn's reauthenticate
    | ReadToken(r: nat)                      // ensureLoggedIn's currentToken
    | Attach(r: nat)                         // authenticate, then the attempt goes out
    | Reply(r: nat, answer: Answer)
    | Relogin(r: nat, reply: LoginReply)     // the 401-driven reauthenticate
    | GiveUp(r: nat)                         // the trip ends before its next attempt goes out

  const Start := System(Session([], 0), [], map[])

  function PcOf(s: System, r: nat): Pc {
    if r in s.requests then s.requests[r].pc else Idle
  }

  function Moved(s: System, r: nat, pc: Pc): System
    requires r in s.requests
  {
    s.(requests := s.requests[r := s.requests[r].(pc := pc)])
  }

  // A reauthenticate region: shared session, login history and this request's login count.
  // On success the request goes on at `pc`, on failure it ends.
  function AfterReauth(s: System, r: nat, seen: nat, reply: LoginReply, pc: Pc): System
    requires r in s.requests
  {
    var q, x := s.requests[r], Reauth(s.session, seen, reply);
    var counted := q.(logins := if x.called then q.logins + 1 else q.logins);
    System(x.session,
           if x.called && !x.failed then s.history + [Login(seen, x.session.cookies)] else s.history,
           s.requests[r := if x.failed then counted.(pc := Idle) else Entering(counted, pc)])
  }

  // Every way into Sends but a retry starts a trip.
  function Entering(q: Request, pc: Pc): Request {
    q.(pc := pc, trips := if pc.Sends? then q.trips + 1 else q.trips)
  }

  function Next(s: System, a: Action): System {
    var pc := PcOf(s, a.r);
    match a
    case Begin(r) =>
      if !pc.Idle? then s
      else if HasSession(s.session) then
        s.(requests := s.requests[r := Entering(Request(Idle, 0, 0), Sends(s.session.gen, false))])
      else s.(requests := s.requests[r := Request(NeedsSession(s.session.gen), 0, 0)])
    case FirstLogin(r, reply) =>
      if pc.NeedsSession? then AfterReauth(s, r, pc.seen, reply, ReadsToken) else s
    case ReadToken(r) =>
      if pc.ReadsToken? then
        s.(requests := s.requests[r := Entering(s.requests[r], Sends(s.session.gen, false))])
      else s
    case Attach(r) =>
      if pc.Sends? then
        Moved(s, r, OnWire(pc.seen, pc.second, s.session.cookies, s.session.gen))
      else s
    case Reply(r, answer) =>
      if !pc.OnWire? then s
      else if answer == Retried then Moved(s, r, Sends(pc.seen, pc.second))
      else if answer == Answered || pc.second then Moved(s, r, Idle)
      else Moved(s, r, Rejected(pc.seen, pc.sent, pc.at))
    case Relogin(r, reply) =>
      if pc.Rejected? then AfterReauth(s, r, pc.seen, reply, Sends(pc.seen, true)) else s
    case GiveUp(r) => if pc.Sends? then Moved(s, r, Idle) else s
  }

  ghost function Run(actions: seq<Action>): System {
    if actions == [] then Start
    else Next(Run(actions[..|actions|-1]), actions[|actions|-1])
  }

  ghost predicate SessionMatchesHistory(s: System) {
    && s.session.gen == |s.history|
    && s.session.cookies == (if s.history == [] then [] else s.history[|s.history|-1].cookies)
    && (forall i :: 0 <= i < |s.history| ==> s.history[i].token == i && s.history[i].cookies != [])
  }

  // The cookies a request carries are those of login number `at`, no older than its token.
  ghost predicate CarriesGeneration(s: System, seen: nat, sent: Cookies, at: nat) {
    && 1 <= seen <= at <= s.session.gen == |s.history|
    && sent == s.history[at - 1].cookies
  }

  ghost predicate RequestOk(s: System, q: Request) {
    match q.pc
    case Idle => q.logins <= 2 && q.trips <= 2
    case NeedsSession(seen) => seen <= s.session.gen && q.logins == q.trips == 0
    case ReadsToken => 1 <= s.session.gen && q.logins <= 1 && q.trips == 0
    case Sends(seen, second) =>
      1 <= seen <= s.session.gen && (if second then q.logins <= 2 && q.trips == 2 else q.logins <= 1 && q.trips == 1)
    case OnWire(seen, second, sent, at) =>
      CarriesGeneration(s, seen, sent, at) && (if second then q.logins <= 2 && q.trips == 2 else q.logins <= 1 && q.trips == 1)
    case Rejected(seen, sent, at) => CarriesGeneration(s, seen, sent, at) && q.logins <= 1 && q.trips == 1
  }

  ghost predicate Inv(s: System) {
    && SessionMatchesHistory(s)
    && (forall r :: r in s.requests ==> RequestOk(s, s.requests[r]))
  }

  // Generations only grow, so what one region changes keeps every other request's facts.
  lemma OthersKeep(s: System, s': System, q: Request)
    requires RequestOk(s, q) && SessionMatchesHistory(s)
    requires s.session.gen <= s'.session.gen == |s'.history| && s.history <= s'.history
    ensures RequestOk(s', q)
  {
  }

  lemma ReauthKeepsHistory(s: System, r: nat, seen: nat, reply: LoginReply, pc: Pc)
    requires SessionMatchesHistory(s) && r in s.requests
    ensures SessionMatchesHistory(AfterReauth(s, r, seen, reply, pc))
    ensures s.history <= AfterReauth(s, r, seen, reply, pc).history
  {
  }

  lemma HistoryPreserved(s: System, a: Action)
    requires SessionMatchesHistory(s)
    ensures SessionMatchesHistory(Next(s, a))
    ensures s.history <= Next(s, a).history
  {
    var pc := PcOf(s, a.r);
    if a.FirstLogin? && pc.NeedsSession? {
      ReauthKeepsHistory(s, a.r, pc.seen, a.reply, ReadsToken);
    } else if a.Relogin? && pc.Rejected? {
      ReauthKeepsHistory(s, a.r, pc.seen, a.reply, Sends(pc.seen, true));
    }
  }

  lemma MoverOk(s: System, a: Action)
    requires Inv(s) && SessionMatchesHistory(Next(s, a)) && a.r in Next(s, a).requests
    ensures RequestOk(Next(s, a), Next(s, a).requests[a.r])
  {
    assert a.r in s.requests ==> RequestOk(s, s.requests[a.r]);
  }

  lemma Preserved(s: System, a: Action)
    requires Inv(s)
    ensures Inv(Next(s, a))
  {
    HistoryPreserved(s, a);
    var s' := Next(s, a);
    forall r | r in s'.requests
      ensures RequestOk(s', s'.requests[r])
    {
      if r == a.r {
        MoverOk(s, a);
      } else {
        OthersUntouched(s, a, r);
        OthersKeep(s, s', s.requests[r]);
      }
    }
  }

  lemma OthersUntouched(s: System, a: Action, r: nat)
    requires r != a.r
    ensures r in s.requests <==> r in Next(s, a).requests
    ensures r in s.requests ==> Next(s, a).requests[r] == s.requests[r]
  {
  }

  lemma {:induction false} RunKeepsInv(actions: seq<Action>)
    ensures Inv(Run(actions))
  {
    if actions != [] {
      RunKeepsInv(actions[..|actions|-1]);
      Preserved(Run(actions[..|actions|-1]), actions[|actions|-1]);
    }
  }

  /* ---------- what every interleaving guarantees ---------- */

  // One successful login per token, as many as the generation: concurrent cold starts and
  // concurrent 401s of the same session never log in twice.
  lemma {:induction false} SingleFlight(actions: seq<Action>)
    ensures var s := Run(actions);
            && |s.history| == s.session.gen
            && (forall i :: 0 <= i < |s.history| ==> s.history[i].token == i)
            && (forall i, j :: 0 <= i < j < |s.history| ==> s.history[i].token != s.history[j].token)
  {
    RunKeepsInv(actions);
  }

  // Every request on the wire carries a real session cookie whose generation lies between
  // its token and the current generation, and no call exceeds two trips and two logins.
  lemma {:induction false} RequestsCarrySession(actions: seq<Action>, r: nat)
    requires r in Run(actions).requests
    ensures var s, q := Run(actions), Run(actions).requests[r];
            && q.logins <= 2 && q.trips <= 2
            && (q.pc.OnWire? ==> q.pc.sent != [] && CarriesGeneration(s, q.pc.seen, q.pc.sent, q.pc.at))
  {
    RunKeepsInv(actions);
  }

  // A 401-driven login happens only to replace the very cookies that were rejected.
  lemma ReloginReplacesRejectedCookies(actions: seq<Action>, r: nat, reply: LoginReply)
    requires PcOf(Run(actions), r).Rejected?
    requires MustLogIn(Run(actions).session, PcOf(Run(actions), r).seen)
    ensures var s, pc := Run(actions), PcOf(Run(actions), r);
            && pc.at == s.session.gen && pc.sent == s.session.cookies
            && (DoLogin(reply).LoggedIn? ==>
                  Next(s, Relogin(r, reply)).history == s.history + [Login(pc.at, DoLogin(reply).cookies)])
  {
    RunKeepsInv(actions);
  }

  ghost predicate NotBy(r: nat, others: seq<Action>) {
    forall i :: 0 <= i < |others| ==> others[i].r != r
  }

  // Steps of other requests leave a request where it is and only add logins.
  lemma {:induction false} OthersLeave(prefix: seq<Action>, others: seq<Action>, r: nat)
    requires NotBy(r, others)
    ensures PcOf(Run(prefix + others), r) == PcOf(Run(prefix), r)
    ensures Run(prefix).history <= Run(prefix + others).history
    decreases |others|
  {
    if others == [] {
      assert prefix + others == prefix;
    } else {
      var before, a := others[..|others|-1], others[|others|-1];
      OthersLeave(prefix, before, r);
      RunOneMore(prefix, before, a, others);
      RunKeepsInv(prefix + before);
      HistoryPreserved(Run(prefix + before), a);
      OthersUntouched(Run(prefix + before), a, r);
    }
  }

  lemma RunOneMore(prefix: seq<Action>, before: seq<Action>, a: Action, others: seq<Action>)
    requires others == before + [a]
    ensures Run(prefix + others) == Next(Run(prefix + before), a)
  {
    assert (prefix + others)[..|prefix + before|] == prefix + before;
  }

  // The second trip is meant to use newer cookies than the rejected ones. Whatever others do
  // before the cookies are attached, it does exactly when the rejected cookies were those of
  // the token, or someone had logged in since they were attached, or someone still does.
  lemma SecondTripFreshIff(actions: seq<Action>, r: nat, reply: LoginReply, others: seq<Action>)
    requires PcOf(Run(actions), r).Rejected? && NotBy(r, others)
    requires PcOf(Run(actions + [Relogin(r, reply)]), r).Sends?
    ensures var pc := PcOf(Run(actions), r);
            var relogged := actions + [Relogin(r, reply)];
            var wire := PcOf(Next(Run(relogged + others), Attach(r)), r);
            && wire.OnWire? && wire.second
            && (wire.at > pc.at <==>
                  || pc.at == pc.seen
                  || |Run(actions).history| > pc.at
                  || |Run(relogged + others).history| > |Run(relogged).history|)
  {
    var relogged := actions + [Relogin(r, reply)];
    RunKeepsInv(actions);
    RunKeepsInv(relogged + others);
    RunOneMore(actions, [], Relogin(r, reply), [Relogin(r, reply)]);
    assert actions + [] == actions;
    OthersLeave(relogged, others, r);
    ReloginAdvances(Run(actions), r, reply);
  }

  // A re-login moves past the token, whoever did the login.
  lemma ReloginAdvances(s: System, r: nat, reply: LoginReply)
    requires Inv(s) && PcOf(s, r).Rejected? && PcOf(Next(s, Relogin(r, reply)), r).Sends?
    ensures var s', pc := Next(s, Relogin(r, reply)), PcOf(s, r);
            && PcOf(s', r) == Sends(pc.seen, true)
            && |s'.history| == (if s.session.gen == pc.seen then |s.history| + 1 else |s.history|)
            && pc.seen < |s'.history| && pc.seen <= pc.at <= |s.history| == s.session.gen
  {
    assert RequestOk(s, s.requests[r]);
  }

  // It need not: request 0 takes token 1, request 1 replaces the session before request 0
  // attaches its cookies, and generation 2 is then rejected too.
  ghost const StaleRetry: seq<Action> :=
    [ Begin(0), FirstLogin(0, LoginHttp(200, ["a"])), ReadToken(0),
      Begin(1), Attach(1), Reply(1, TokenRejected), Relogin(1, LoginHttp(200, ["b"])),
      Attach(0), Reply(0, TokenRejected), Relogin(0, LoginHttp(200, ["c"])), Attach(0) ]

  ghost predicate Reaches(k: nat, session: Session, pc0: Pc, pc1: Pc)
    requires k <= |StaleRetry|
  {
    var s := Run(StaleRetry[..k]);
    s.session == session && PcOf(s, 0) == pc0 && PcOf(s, 1) == pc1
  }

  lemma StaleRetryStep(k: nat)
    requires k < |StaleRetry|
    ensures Run(StaleRetry[..k + 1]) == Next(Run(StaleRetry[..k]), StaleRetry[k])
  {
    assert StaleRetry[..k + 1][..k] == StaleRetry[..k];
  }

  lemma StaleRetryLogin()
    ensures Reaches(3, Session(["a"], 1), Sends(1, false), Idle)
  {
    StaleRetryStep(0);
    StaleRetryStep(1);
    StaleRetryStep(2);
    assert Reaches(0, Session([], 0), Idle, Idle);
    assert Reaches(1, Session([], 0), NeedsSession(0), Idle);
    assert Reaches(2, Session(["a"], 1), ReadsToken, Idle);
  }

  lemma StaleRetrySent()
    ensures Reaches(5, Session(["a"], 1), Sends(1, false), OnWire(1, false, ["a"], 1))
  {
    StaleRetryLogin();
    StaleRetryStep(3);
    StaleRetryStep(4);
    assert Reaches(4, Session(["a"], 1), Sends(1, false), Sends(1, false));
  }

  lemma StaleRetryReplaced()
    ensures Reaches(7, Session(["b"], 2), Sends(1, false), Sends(1, true))
  {
    StaleRetrySent();
    StaleRetryStep(5);
    StaleRetryStep(6);
    assert Reaches(6, Session(["a"], 1), Sends(1, false), Rejected(1, ["a"], 1));
  }

  lemma StaleRetryRejected()
    ensures Reaches(9, Session(["b"], 2), Rejected(1, ["b"], 2), Sends(1, true))
  {
    StaleRetryReplaced();
    StaleRetryStep(7);
    StaleRetryStep(8);
    assert Reaches(8, Session(["b"], 2), OnWire(1, false, ["b"], 2), Sends(1, true));
  }

  lemma RetryCanResendRejectedCookies()
    ensures Reaches(9, Session(["b"], 2), Rejected(1, ["b"], 2), Sends(1, true))
    ensures Reaches(11, Session(["b"], 2), OnWire(1, true, ["b"], 2), Sends(1, true))
  {
    StaleRetryRejected();
    StaleRetryStep(9);
    StaleRetryStep(10);
    assert Reaches(10, Session(["b"], 2), Sends(1, true), Sends(1, true));
  }

  /* ---------- the shared authenticator ---------- */

  lemma RunSnoc(actions: seq<Action>, a: Action)
    ensures Run(actions + [a]) == Next(Run(actions), a)
  {
    assert (actions + [a])[..|actions|] == actions;
  }

  class LtpaAuthenticator {
    var cookies: Cookies
    var gen: nat
    var world: System // the requests in progress
    ghost var trace: seq<Action>

    constructor ()
      ensures Valid() && View() == Session([], 0) && trace == []
    {
      cookies, gen, world, trace := [], 0, Start, [];
    }

    ghost function View(): Session
      reads this
    {
      Session(cookies, gen)
    }

    // The session is that of the world, which is what the steps taken so far made of it.
    ghost predicate Valid()
      reads this
    {
      world == Run(trace) && world.session == View()
    }

    // A request is in progress and has got this far.
    ghost predicate At(r: nat, q: Request)
      reads this
    {
      Valid() && r in world.requests && world.requests[r] == q
    }

    // The locked region of authenticate.
    method Attach() returns (attached: Cookies)
      ensures attached == View().cookies
    {
      attached := cookies;
    }

    // The locked region of ensureLoggedIn; the token returned is the generation seen.
    method Peek() returns (haveSession: bool, seen: nat)
      ensures haveSession <==> HasSession(View())
      ensures seen == View().gen
    {
      haveSession := |cookies| > 0;
      seen := gen;
    }

    // The login call runs inside the locked region.
    method Reauthenticate(seen: nat, reply: LoginReply) returns (failed: bool, called: bool)
      modifies this`cookies, this`gen
      ensures Reauthed(View(), called, failed) == Reauth(old(View()), seen, reply)
    {
      if gen != seen {
        return false, false;
      }
      match DoLogin(reply) {
        case LoggedIn(c) =>
          cookies := c;
          gen := gen + 1;
          return false, true;
        case _ =>
          return true, true;
      }
    }

    // Another request takes a step.
    method Other(r: nat, a: Action)
      requires Valid() && a.r != r
      modifies this
      ensures Valid()
      ensures r in world.requests <==> r in old(world).requests
      ensures r in world.requests ==> world.requests[r] == old(world).requests[r]
    {
      OthersUntouched(world, a, r);
      Install(Next(world, a).session);
      Took(a);
    }

    method Install(s: Session)
      modifies this`cookies, this`gen
      ensures View() == s
    {
      cookies, gen := s.cookies, s.gen;
    }

    // Other requests, before a step of request r.
    method Others(r: nat, actions: seq<Action>)
      requires Valid()
      modifies this
      ensures Valid()
      ensures r in world.requests <==> r in old(world).requests
      ensures r in world.requests ==> world.requests[r] == old(world).requests[r]
      ensures actions == [] ==> View() == old(View()) && world == old(world)
    {
      for i := 0 to |actions|
        invariant Valid()
        invariant r in world.requests <==> r in old(world).requests
        invariant r in world.requests ==> world.requests[r] == old(world).requests[r]
        invariant i == 0 ==> View() == old(View()) && world == old(world)
      {
        if actions[i].r != r {
          Other(r, actions[i]);
        }
      }
    }

    // The step of the machine that the code has just taken.
    method Took(a: Action)
      requires world == Run(trace) && Next(world, a).session == View()
      modifies this`world, this`trace
      ensures Valid() && world == Next(old(world), a)
    {
      RunSnoc(trace, a);
      trace := trace + [a];
      world := Next(world, a);
    }

    // One attempt goes out: it carries a session cookie, whatever others do meanwhile.
    method Send(r: nat, ghost q: Request, others: seq<Action>) returns (sent: Cookies)
      requires At(r, q) && q.pc.Sends?
      modifies this
      ensures exists at :: At(r, q.(pc := OnWire(q.pc.seen, q.pc.second, sent, at)))
      ensures sent != []
    {
      Others(r, others);
      sent := Attach();
      Took(Action.Attach(r));
      RequestsCarrySession(trace, r);
      assert At(r, q.(pc := OnWire(q.pc.seen, q.pc.second, sent, gen)));
    }

    // The token of the session, after a login if there was none; None is the error of a
    // failed login. The first trip is then entered.
    method EnsureLoggedIn(r: nat, others: nat -> seq<Action>, reply: LoginReply) returns (token: Option<nat>, login: Option<Try>)
      requires Valid() && PcOf(world, r).Idle?
      modifies this
      ensures token.None? <==> login.Some? && Fails(login.value)
      ensures At(r, if token.Some? then Request(Sends(token.value, false), Contacted(login), 1) else Request(Idle, Contacted(login), 0))
      ensures login.Some? ==> login.value.reply == reply
      ensures others(0) == [] ==> (login.None? <==> HasSession(old(View())))
      ensures others(1) == [] && login.Some? ==> Contacts(login.value)
    {
      Others(r, others(0));
      var haveSession, seen := Peek();
      Took(Begin(r));
      if haveSession {
        return Some(seen), None;
      }
      Others(r, others(1));
      login := Some(Try(gen, seen, reply));
      var failed, called := Reauthenticate(seen, reply);
      Took(FirstLogin(r, reply));
      if failed {
        return None, login;
      }
      Others(r, others(2));
      token := Some(gen);
      Took(ReadToken(r));
    }

    // The re-login after a rejected token, and into the second trip.
    method LogInAgain(r: nat, ghost q: Request, token: nat, others: seq<Action>, reply: LoginReply) returns (login: Try)
      requires At(r, q) && q.pc.Rejected? && q.pc.seen == token
      modifies this
      ensures login.seen == token && login.reply == reply
      ensures var logins := q.logins + Contacted(Some(login));
              if Fails(login) then At(r, q.(pc := Idle, logins := logins))
              else At(r, Request(Sends(token, true), logins, q.trips + 1))
      ensures others == [] && old(gen) == token ==> Contacts(login)
    {
      Others(r, others);
      login := Try(gen, token, reply);
      var failed, called := Reauthenticate(token, reply);
      Took(Relogin(r, reply));
    }
  }
}
