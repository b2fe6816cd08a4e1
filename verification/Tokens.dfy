/** Refresh-token rotation. A refresh finds its token, deletes it, and creates a new one, in three
    database calls between which other refreshes, logins and logouts may run. */
module Tokens {
  import opened Results

  type Token = nat
  type User = nat

  /** Where a refresh stands between its calls. */
  datatype Phase = Found(token: Token, user: User) | Deleted(token: Token, user: User)

  /** Specification only: what happened to tokens. A refresh is lost when both of its
      attempts to store a new token collide. */
  datatype Entry =
    | Issued(token: Token, user: User)
    | Rotated(token: Token, next: Token, user: User)
    | Lost(token: Token, user: User)
    | Swept(user: User, count: nat)

  /** `live` is the token table by its unique token; `running` the refreshes under way, by request; `owner`, for
      specification only, whose every token ever stored is. */
  datatype World = World(live: map<Token, User>, running: map<nat, Phase>, owner: map<Token, User>, log: seq<Entry>)

  const EMPTY := World(map[], map[], map[], [])

  datatype Event =
    | Login(user: User, first: Token, second: Token)
    | Find(request: nat, token: Token, expired: bool)
    | Delete(request: nat)
    | Create(request: nat, first: Token, second: Token)
    | Logout(user: User)

  // ---------- the calls ----------

  /** Storing a new token: on a collision one more attempt, with another token. */
  function Chosen(live: map<Token, User>, first: Token, second: Token): Option<Token> {
    if first !in live then Some(first) else if second !in live then Some(second) else None
  }

  function LoginStep(w: World, user: User, first: Token, second: Token): (World, Result<Token>) {
    match Chosen(w.live, first, second)
    case None => (w, Err(ConstraintViolated))
    case Some(t) =>
      (w.(live := w.live[t := user], owner := w.owner[t := user], log := w.log + [Issued(t, user)]), Ok(t))
  }

  function FindStep(w: World, request: nat, token: Token, expired: bool): (World, Outcome) {
    if token !in w.live || expired then (w, Refused(Unauthorized))
    else (w.(running := w.running[request := Found(token, w.live[token])]), Done)
  }

  /** Deleting a row that is no longer there is an error, and ends the refresh. */
  function DeleteStep(w: World, request: nat): (World, Outcome)
    requires request in w.running && w.running[request].Found?
  {
    var found := w.running[request];
    if found.token !in w.live then (w.(running := w.running - {request}), Refused(Unauthorized))
    else (w.(live := w.live - {found.token}, running := w.running[request := Deleted(found.token, found.user)]), Done)
  }

  function CreateStep(w: World, request: nat, first: Token, second: Token): (World, Result<Token>)
    requires request in w.running && w.running[request].Deleted?
  {
    var spent, user := w.running[request].token, w.running[request].user;
    match Chosen(w.live, first, second)
    case None => (w.(running := w.running - {request}, log := w.log + [Lost(spent, user)]), Err(Unauthorized))
    case Some(t) =>
      (w.(live := w.live[t := user], running := w.running - {request}, owner := w.owner[t := user],
          log := w.log + [Rotated(spent, t, user)]), Ok(t))
  }

  function TokensOf(live: map<Token, User>, user: User): set<Token> {
    set t | t in live && live[t] == user
  }

  function LogoutStep(w: World, user: User): World {
    w.(live := w.live - TokensOf(w.live, user), log := w.log + [Swept(user, |TokensOf(w.live, user)|)])
  }

  /** An event whose request is not at that point of a refresh is none. */
  function Step(w: World, e: Event): World {
    match e
    case Login(user, first, second) => LoginStep(w, user, first, second).0
    case Find(request, token, expired) => if request in w.running then w else FindStep(w, request, token, expired).0
    case Delete(request) => if request in w.running && w.running[request].Found? then DeleteStep(w, request).0 else w
    case Create(request, first, second) =>
      if request in w.running && w.running[request].Deleted? then CreateStep(w, request, first, second).0 else w
    case Logout(user) => LogoutStep(w, user)
  }

  /** A newly signed token may collide with a stored one, but never equals one that was stored before and removed: every token
      carries a new identifier. */
  predicate FreshFor(w: World, t: Token) {
    t in w.owner ==> t in w.live
  }

  predicate Allowed(w: World, e: Event) {
    (e.Login? || e.Create?) ==> FreshFor(w, e.first) && FreshFor(w, e.second)
  }

  predicate AllAllowed(w: World, events: seq<Event>)
    decreases |events|
  {
    events == [] || (Allowed(w, events[0]) && AllAllowed(Step(w, events[0]), events[1..]))
  }

  function Run(w: World, events: seq<Event>): World
    decreases |events|
  {
    if events == [] then w else Run(Step(w, events[0]), events[1..])
  }

  // ---------- single use ----------

  /** Every token in the table or in a refresh is its owner's; a token a refresh has deleted is in no other's
      hands, and has no successor yet. */
  ghost predicate Owned(w: World) {
    && (forall t :: t in w.live ==> t in w.owner && w.live[t] == w.owner[t])
    && (forall p :: p in w.running ==> w.running[p].token in w.owner && w.running[p].user == w.owner[w.running[p].token])
  }

  ghost predicate DeletedOnce(w: World) {
    && (forall p :: p in w.running && w.running[p].Deleted? ==> w.running[p].token !in w.live)
    && (forall p, q :: p in w.running && q in w.running && p != q && w.running[p].Deleted? && w.running[q].Deleted? ==>
          w.running[p].token != w.running[q].token)
    && (forall p, i :: p in w.running && w.running[p].Deleted? && 0 <= i < |w.log| && Spends(w.log[i]) ==>
          w.log[i].token != w.running[p].token)
  }

  /** The log entries that end the life of a token through a refresh. */
  predicate Spends(entry: Entry) {
    entry.Rotated? || entry.Lost?
  }

  ghost predicate SpentAreDead(w: World) {
    && (forall i :: 0 <= i < |w.log| && Spends(w.log[i]) ==>
          w.log[i].token in w.owner && w.log[i].token !in w.live && w.log[i].user == w.owner[w.log[i].token])
    && (forall i :: 0 <= i < |w.log| && w.log[i].Rotated? ==> w.log[i].next in w.owner && w.log[i].user == w.owner[w.log[i].next])
  }

  ghost predicate SpentOnce(w: World) {
    && (forall i, j :: 0 <= i < j < |w.log| && Spends(w.log[i]) && Spends(w.log[j]) ==> w.log[i].token != w.log[j].token)
    && (forall i, j :: 0 <= i < j < |w.log| && w.log[i].Rotated? && w.log[j].Rotated? ==> w.log[i].next != w.log[j].next)
  }

  ghost predicate Valid(w: World) {
    Owned(w) && DeletedOnce(w) && SpentAreDead(w) && SpentOnce(w)
  }

  lemma StepKeepsOwned(w: World, e: Event)
    requires Valid(w) && Allowed(w, e)
    ensures Owned(Step(w, e))
  {
    hide SpentOnce, DeletedOnce;
  }

  lemma StepKeepsDeleted(w: World, e: Event)
    requires Valid(w) && Allowed(w, e)
    ensures DeletedOnce(Step(w, e))
  {
  }

  lemma StepKeepsDead(w: World, e: Event)
    requires Valid(w) && Allowed(w, e)
    ensures SpentAreDead(Step(w, e))
  {
    hide SpentOnce;
  }

  lemma StepKeepsSpent(w: World, e: Event)
    requires Valid(w) && Allowed(w, e)
    ensures SpentOnce(Step(w, e))
  {
    hide Owned;
  }

  lemma StepKeepsValid(w: World, e: Event)
    requires Valid(w) && Allowed(w, e)
    ensures Valid(Step(w, e))
  {
    StepKeepsOwned(w, e);
    StepKeepsDeleted(w, e);
    StepKeepsDead(w, e);
    StepKeepsSpent(w, e);
  }

  lemma {:induction false} RunKeepsValid(w: World, events: seq<Event>)
    requires Valid(w) && AllAllowed(w, events)
    ensures Valid(Run(w, events))
    decreases |events|
  {
    if events != [] {
      hide Valid, Step, Allowed;
      StepKeepsValid(w, events[0]);
      RunKeepsValid(Step(w, events[0]), events[1..]);
    }
  }

  /** Under every interleaving of refreshes, logins and logouts: a token that has a successor is out of the table,
      its successor is its own user's, it has no second successor, and its successor no second predecessor. */
  lemma OneSuccessor(events: seq<Event>, i: nat)
    requires AllAllowed(EMPTY, events)
    requires i < |Run(EMPTY, events).log| && Run(EMPTY, events).log[i].Rotated?
    ensures var w := Run(EMPTY, events);
            var rotation := w.log[i];
            && rotation.token !in w.live
            && rotation.token in w.owner && rotation.next in w.owner
            && w.owner[rotation.token] == rotation.user == w.owner[rotation.next]
            && forall j :: 0 <= j < |w.log| && j != i && w.log[j].Rotated? ==>
                 w.log[j].token != rotation.token && w.log[j].next != rotation.next
  {
    RunKeepsValid(EMPTY, events);
    hide Run, AllAllowed, Owned, DeletedOnce;
  }

  // ---------- conservation ----------

  function LiveTokens(w: World, user: User): nat {
    |TokensOf(w.live, user)|
  }

  /** The refreshes of a user that have deleted their token and not yet stored a new one. */
  function Between(running: map<nat, Phase>, user: User): set<nat> {
    set p | p in running && running[p].Deleted? && running[p].user == user
  }

  function InFlight(w: World, user: User): nat {
    |Between(w.running, user)|
  }

  datatype Cause = ByLogin | ByLogout | ByCollision

  /** What an entry issued to or took from a user, by cause. */
  function Count(entry: Entry, user: User, cause: Cause): nat {
    match entry
    case Issued(_, u) => if u == user && cause.ByLogin? then 1 else 0
    case Swept(u, n) => if u == user && cause.ByLogout? then n else 0
    case Lost(_, u) => if u == user && cause.ByCollision? then 1 else 0
    case Rotated(_, _, _) => 0
  }

  function Tally(log: seq<Entry>, user: User, cause: Cause): nat {
    if log == [] then 0 else Tally(log[..|log| - 1], user, cause) + Count(log[|log| - 1], user, cause)
  }

  lemma TallyAfter(log: seq<Entry>, entry: Entry, user: User, cause: Cause)
    ensures Tally(log + [entry], user, cause) == Tally(log, user, cause) + Count(entry, user, cause)
  {
    assert (log + [entry])[..|log|] == log;
  }

  predicate Balanced(w: World, user: User) {
    Tally(w.log, user, ByLogin)
    == LiveTokens(w, user) + InFlight(w, user) + Tally(w.log, user, ByLogout) + Tally(w.log, user, ByCollision)
  }

  /** A set with at most one element more. */
  lemma OneMore(small: set<nat>, big: set<nat>, x: nat, more: bool)
    requires x !in small && forall y :: y in big <==> y in small || (more && y == x)
    ensures |big| == |small| + if more then 1 else 0
  {
    assert big == if more then small + {x} else small;
  }

  lemma StoredSize(live: map<Token, User>, t: Token, user: User, u: User)
    requires t !in live
    ensures |TokensOf(live[t := user], u)| == |TokensOf(live, u)| + if u == user then 1 else 0
  {
    OneMore(TokensOf(live, u), TokensOf(live[t := user], u), t, u == user);
  }

  lemma DeletedSize(live: map<Token, User>, t: Token, u: User)
    requires t in live
    ensures |TokensOf(live, u)| == |TokensOf(live - {t}, u)| + if live[t] == u then 1 else 0
  {
    OneMore(TokensOf(live - {t}, u), TokensOf(live, u), t, live[t] == u);
  }

  lemma SweptSize(live: map<Token, User>, user: User, u: User)
    ensures |TokensOf(live - TokensOf(live, user), u)| == if u == user then 0 else |TokensOf(live, u)|
  {
    var after := TokensOf(live - TokensOf(live, user), u);
    if u == user {
      assert forall t :: t !in after;
      assert after == {};
    } else {
      assert after == TokensOf(live, u);
    }
  }

  /** A request that has not deleted its token does not count, wherever it stands. */
  lemma FoundSize(running: map<nat, Phase>, p: nat, phase: Phase, u: User)
    requires p !in running && phase.Found?
    ensures |Between(running[p := phase], u)| == |Between(running, u)|
  {
    OneMore(Between(running, u), Between(running[p := phase], u), p, false);
  }

  lemma DeletingSize(running: map<nat, Phase>, p: nat, phase: Phase, u: User)
    requires p in running && running[p].Found? && phase.Deleted?
    ensures |Between(running[p := phase], u)| == |Between(running, u)| + if phase.user == u then 1 else 0
  {
    OneMore(Between(running, u), Between(running[p := phase], u), p, phase.user == u);
  }

  lemma DoneSize(running: map<nat, Phase>, p: nat, u: User)
    requires p in running
    ensures |Between(running, u)|
            == |Between(running - {p}, u)| + if running[p].Deleted? && running[p].user == u then 1 else 0
  {
    OneMore(Between(running - {p}, u), Between(running, u), p, running[p].Deleted? && running[p].user == u);
  }

  /** What a step adds to a user's live tokens and refreshes between delete and create, against what it logs. */
  lemma StepBalance(w: World, e: Event, u: User)
    requires Owned(w)
    ensures var w' := Step(w, e);
            LiveTokens(w', u) + InFlight(w', u)
            == LiveTokens(w, u) + InFlight(w, u)
               + if |w'.log| == |w.log| then 0
                 else Count(w'.log[|w.log|], u, ByLogin) - Count(w'.log[|w.log|], u, ByLogout)
                      - Count(w'.log[|w.log|], u, ByCollision)
  {
    hide TokensOf, Between;
    match e
    case Login(user, first, second) =>
      var t := Chosen(w.live, first, second);
      if t.Some? { StoredSize(w.live, t.value, user, u); }
    case Find(p, token, _) =>
      if token in w.live && p !in w.running { FoundSize(w.running, p, Found(token, w.live[token]), u); }
    case Delete(p) =>
      if p in w.running && w.running[p].Found? {
        var phase := w.running[p];
        if phase.token in w.live {
          DeletingSize(w.running, p, Deleted(phase.token, phase.user), u);
          DeletedSize(w.live, phase.token, u);
        } else {
          DoneSize(w.running, p, u);
        }
      }
    case Create(p, first, second) =>
      if p in w.running && w.running[p].Deleted? {
        DoneSize(w.running, p, u);
        var t := Chosen(w.live, first, second);
        if t.Some? { StoredSize(w.live, t.value, w.running[p].user, u); }
      }
    case Logout(user) => SweptSize(w.live, user, u);
  }

  lemma StepLogs(w: World, e: Event)
    ensures var w' := Step(w, e); w'.log == w.log || (|w'.log| == |w.log| + 1 && w'.log[..|w.log|] == w.log)
  {
    hide TokensOf;
  }

  lemma StepKeepsBalanced(w: World, e: Event, u: User)
    requires Valid(w) && Balanced(w, u)
    ensures Balanced(Step(w, e), u)
  {
    var w' := Step(w, e);
    StepLogs(w, e);
    StepBalance(w, e, u);
    hide Step, LiveTokens, InFlight, Tally;
    if w'.log != w.log {
      var entry := w'.log[|w.log|];
      assert w'.log == w.log + [entry];
      TallyAfter(w.log, entry, u, ByLogin);
      TallyAfter(w.log, entry, u, ByLogout);
      TallyAfter(w.log, entry, u, ByCollision);
    }
  }

  lemma {:induction false} RunKeepsBalanced(w: World, events: seq<Event>, u: User)
    requires Valid(w) && AllAllowed(w, events) && Balanced(w, u)
    ensures Balanced(Run(w, events), u)
    decreases |events|
  {
    if events != [] {
      hide Valid, Step, Allowed, Balanced;
      StepKeepsValid(w, events[0]);
      StepKeepsBalanced(w, events[0], u);
      RunKeepsBalanced(Step(w, events[0]), events[1..], u);
    }
  }

  /** Under every interleaving, the tokens a user got by logging in are the user's live tokens, plus the refreshes
      between delete and create, plus the tokens removed by logouts, plus the refreshes lost to
      two collisions. */
  lemma TokensAreConserved(events: seq<Event>, user: User)
    requires AllAllowed(EMPTY, events)
    ensures var w := Run(EMPTY, events);
            Tally(w.log, user, ByLogin)
            == LiveTokens(w, user) + InFlight(w, user) + Tally(w.log, user, ByLogout) + Tally(w.log, user, ByCollision)
  {
    RunKeepsBalanced(EMPTY, events, user);
  }

  // ---------- after a logout ----------

  predicate NoLogin(events: seq<Event>, user: User) {
    forall e :: e in events && e.Login? ==> e.user != user
  }

  lemma WithoutLogin(w: World, e: Event, u: User)
    requires Valid(w) && !(e.Login? && e.user == u)
    ensures LiveTokens(Step(w, e), u) + InFlight(Step(w, e), u) <= LiveTokens(w, u) + InFlight(w, u)
  {
    StepBalance(w, e, u);
    hide LiveTokens, InFlight, TokensOf, Owned;
  }

  lemma {:induction false} RunWithoutLogin(w: World, events: seq<Event>, u: User)
    requires Valid(w) && AllAllowed(w, events) && NoLogin(events, u)
    ensures LiveTokens(Run(w, events), u) + InFlight(Run(w, events), u) <= LiveTokens(w, u) + InFlight(w, u)
    decreases |events|
  {
    if events != [] {
      hide Valid, Step, Allowed, LiveTokens, InFlight;
      StepKeepsValid(w, events[0]);
      assert !(events[0].Login? && events[0].user == u);
      WithoutLogin(w, events[0], u);
      RunWithoutLogin(Step(w, events[0]), events[1..], u);
    }
  }

  /** After a logout and until the next login, a user has no more live tokens than refreshes were between delete and
      create at the logout: none at all if there were none. */
  lemma LogoutBound(before: seq<Event>, user: User, after: seq<Event>)
    requires AllAllowed(EMPTY, before) && AllAllowed(LogoutStep(Run(EMPTY, before), user), after) && NoLogin(after, user)
    ensures var w := Run(EMPTY, before);
            LiveTokens(Run(LogoutStep(w, user), after), user) <= InFlight(w, user)
  {
    var w := Run(EMPTY, before);
    RunKeepsValid(EMPTY, before);
    StepKeepsValid(w, Logout(user));
    SweptSize(w.live, user, user);
    hide Run, AllAllowed, Valid, NoLogin;
    RunWithoutLogin(LogoutStep(w, user), after, user);
  }

  /** The tokens that rotations of a log derive from some tokens, those included. */
  function Heirs(log: seq<Entry>, roots: set<Token>): set<Token> {
    if log == [] then roots
    else
      var before, last := Heirs(log[..|log| - 1], roots), log[|log| - 1];
      if last.Rotated? && last.token in before then before + {last.next} else before
  }

  lemma HeirsAfter(log: seq<Entry>, entry: Entry, roots: set<Token>)
    ensures Heirs(log + [entry], roots)
            == Heirs(log, roots) + if entry.Rotated? && entry.token in Heirs(log, roots) then {entry.next} else {}
  {
    assert (log + [entry])[..|log|] == log;
  }

  /** Each token of the chain was rotated into the next. */
  ghost predicate Chain(log: seq<Entry>, tokens: seq<Token>) {
    forall k :: 0 <= k < |tokens| - 1 ==> RotatedInto(log, tokens[k], tokens[k + 1])
  }

  predicate RotatedInto(log: seq<Entry>, token: Token, next: Token) {
    exists i :: 0 <= i < |log| && log[i].Rotated? && log[i].token == token && log[i].next == next
  }

  lemma ChainInLonger(log: seq<Entry>, entry: Entry, tokens: seq<Token>)
    requires Chain(log, tokens)
    ensures Chain(log + [entry], tokens)
  {
    forall k | 0 <= k < |tokens| - 1 ensures RotatedInto(log + [entry], tokens[k], tokens[k + 1]) {
      assert RotatedInto(log, tokens[k], tokens[k + 1]);
      var i :| 0 <= i < |log| && log[i].Rotated? && log[i].token == tokens[k] && log[i].next == tokens[k + 1];
      assert (log + [entry])[i] == log[i];
    }
  }

  /** An heir is the end of a chain of rotations that starts at one of the roots. */
  lemma {:induction false} HeirHasChain(log: seq<Entry>, roots: set<Token>, t: Token) returns (tokens: seq<Token>)
    requires t in Heirs(log, roots)
    ensures tokens != [] && tokens[0] in roots && tokens[|tokens| - 1] == t && Chain(log, tokens)
    decreases |log|
  {
    if log == [] {
      tokens := [t];
    } else {
      var rest, last := log[..|log| - 1], log[|log| - 1];
      assert log == rest + [last];
      if t in Heirs(rest, roots) {
        tokens := HeirHasChain(rest, roots, t);
        ChainInLonger(rest, last, tokens);
      } else {
        var start := HeirHasChain(rest, roots, last.token);
        ChainInLonger(rest, last, start);
        tokens := start + [t];
        assert RotatedInto(log, last.token, t) by { assert log[|log| - 1] == last; }
      }
    }
  }

  /** The user's tokens, stored or in a refresh that has deleted one, are heirs of `roots` by what was logged from `n` on. */
  ghost predicate Inherited(w: World, n: nat, user: User, roots: set<Token>)
    requires n <= |w.log|
  {
    && (forall t :: t in w.live && w.live[t] == user ==> t in Heirs(w.log[n..], roots))
    && (forall p :: p in w.running && w.running[p].Deleted? && w.running[p].user == user ==>
          w.running[p].token in Heirs(w.log[n..], roots))
  }

  /** The roots are removed for good. */
  predicate Removed(w: World, roots: set<Token>) {
    forall t :: t in roots ==> t in w.owner && t !in w.live
  }

  lemma StepKeepsRemoved(w: World, e: Event, roots: set<Token>)
    requires Allowed(w, e) && Removed(w, roots)
    ensures Removed(Step(w, e), roots)
  {
  }

  lemma HeirsGrow(w: World, e: Event, n: nat, roots: set<Token>)
    requires n <= |w.log|
    ensures n <= |Step(w, e).log|
    ensures Heirs(Step(w, e).log[n..], roots)
            == Heirs(w.log[n..], roots)
               + if |Step(w, e).log| > |w.log| && Step(w, e).log[|w.log|].Rotated?
                    && Step(w, e).log[|w.log|].token in Heirs(w.log[n..], roots)
                 then {Step(w, e).log[|w.log|].next} else {}
  {
    StepLogs(w, e);
    hide Step, Heirs;
    var log := Step(w, e).log;
    if log != w.log {
      assert log[n..] == w.log[n..] + [log[|w.log|]];
      HeirsAfter(w.log[n..], log[|w.log|], roots);
    }
  }

  lemma StepKeepsInherited(w: World, e: Event, n: nat, user: User, roots: set<Token>)
    requires Valid(w) && n <= |w.log| && Inherited(w, n, user, roots) && !(e.Login? && e.user == user)
    ensures n <= |Step(w, e).log| && Inherited(Step(w, e), n, user, roots)
  {
    HeirsGrow(w, e, n, roots);
    hide Heirs, DeletedOnce, SpentAreDead, SpentOnce;
  }

  lemma {:induction false} RunKeepsInherited(w: World, events: seq<Event>, n: nat, user: User, roots: set<Token>)
    requires Valid(w) && AllAllowed(w, events) && NoLogin(events, user)
    requires n <= |w.log| && Inherited(w, n, user, roots) && Removed(w, roots)
    ensures n <= |Run(w, events).log| && Inherited(Run(w, events), n, user, roots) && Removed(Run(w, events), roots)
    decreases |events|
  {
    if events != [] {
      hide Valid, Step, Allowed, Inherited, Removed;
      StepKeepsValid(w, events[0]);
      assert !(events[0].Login? && events[0].user == user);
      StepKeepsInherited(w, events[0], n, user, roots);
      StepKeepsRemoved(w, events[0], roots);
      RunKeepsInherited(Step(w, events[0]), events[1..], n, user, roots);
    }
  }

  /** The tokens that the user's refreshes in flight have deleted. */
  function InFlightTokens(w: World, user: User): set<Token> {
    set p | p in Between(w.running, user) :: w.running[p].token
  }

  lemma LoggedOut(w: World, user: User)
    requires Valid(w)
    ensures var w' := LogoutStep(w, user);
            Inherited(w', |w'.log|, user, InFlightTokens(w, user)) && Removed(w', InFlightTokens(w, user))
  {
    var w' := LogoutStep(w, user);
    assert w'.log[|w'.log|..] == [];
  }

  /** Every token of a user that is live after a logout, and before the next login, ends a chain of rotations, at least one and
      all made after the logout, that starts at a token which a refresh in flight at the logout had deleted. */
  lemma LogoutOrigin(before: seq<Event>, user: User, after: seq<Event>, t: Token) returns (tokens: seq<Token>)
    requires AllAllowed(EMPTY, before) && AllAllowed(LogoutStep(Run(EMPTY, before), user), after) && NoLogin(after, user)
    requires var w := Run(LogoutStep(Run(EMPTY, before), user), after); t in w.live && w.live[t] == user
    ensures var w := Run(EMPTY, before);
            var out := LogoutStep(w, user);
            var log := Run(out, after).log;
            && |tokens| >= 2 && tokens[0] in InFlightTokens(w, user) && tokens[|tokens| - 1] == t
            && |out.log| <= |log| && Chain(log[|out.log|..], tokens)
  {
    hide Run, AllAllowed, NoLogin, Heirs, LogoutStep, InFlightTokens, Chain;
    var w := Run(EMPTY, before);
    var out := LogoutStep(w, user);
    LogoutHeirs(before, user, after);
    tokens := HeirHasChain(Run(out, after).log[|out.log|..], InFlightTokens(w, user), t);
  }

  lemma LogoutHeirs(before: seq<Event>, user: User, after: seq<Event>)
    requires AllAllowed(EMPTY, before) && AllAllowed(LogoutStep(Run(EMPTY, before), user), after) && NoLogin(after, user)
    ensures var w := Run(EMPTY, before);
            var out := LogoutStep(w, user);
            var end := Run(out, after);
            && |out.log| <= |end.log|
            && Inherited(end, |out.log|, user, InFlightTokens(w, user)) && Removed(end, InFlightTokens(w, user))
  {
    var w := Run(EMPTY, before);
    RunKeepsValid(EMPTY, before);
    assert Valid(LogoutStep(w, user)) by { StepKeepsValid(w, Logout(user)); }
    LoggedOut(w, user);
    hide Run, AllAllowed, Valid, NoLogin, Heirs, LogoutStep, InFlightTokens, Inherited, Removed;
    RunKeepsInherited(LogoutStep(w, user), after, |LogoutStep(w, user).log|, user, InFlightTokens(w, user));
  }

  /** And every refresh that is between delete and create does outlive the logout, once it stores its token. */
  lemma InFlightOutlivesLogout(w: World, request: nat, user: User, first: Token, second: Token)
    requires request in Between(w.running, user)
    requires first !in w.live || second !in w.live
    ensures var (w', r) := CreateStep(LogoutStep(w, user), request, first, second);
            r.Ok? && r.value in w'.live && w'.live[r.value] == user
  {
  }

  // ---------- what each call answers and leaves ----------

  /** The token of `user` that a call stored: the first proposal if it was new, else the second. */
  ghost predicate StoredNew(live: map<Token, User>, live': map<Token, User>, first: Token, second: Token, t: Token, user: User) {
    && t !in live && t == (if first in live then second else first)
    && live' == live[t := user]
  }

  /** A login stores a token exactly when one of the two proposals is new. */
  lemma LoginIff(w: World, user: User, first: Token, second: Token)
    ensures var (w', r) := LoginStep(w, user, first, second);
            && (r.Ok? <==> first !in w.live || second !in w.live)
            && (r.Err? ==> w' == w)
            && (r.Ok? ==> StoredNew(w.live, w'.live, first, second, r.value, user) && w'.running == w.running)
  {
  }

  /** A refresh starts exactly with a token that is stored and not expired, for that token's user; nothing is stored or removed. */
  lemma FoundIff(w: World, request: nat, token: Token, expired: bool)
    ensures var (w', r) := FindStep(w, request, token, expired);
            && (r.Done? <==> token in w.live && !expired)
            && w' == w.(running := w'.running)
            && w'.running == if r.Done? then w.running[request := Found(token, w.live[token])] else w.running
  {
  }

  /** It goes on exactly when the token is still stored, and removes that token; otherwise the refresh is over. */
  lemma DeletedIff(w: World, request: nat)
    requires request in w.running && w.running[request].Found?
    ensures var (w', r) := DeleteStep(w, request);
            var found := w.running[request];
            && (r.Done? <==> found.token in w.live)
            && w'.live == w.live - {found.token} && w'.owner == w.owner && w'.log == w.log
            && w'.running == if r.Done? then w.running[request := Deleted(found.token, found.user)] else w.running - {request}
  {
  }

  /** It ends with a new token of the same user exactly when one of the two proposals is new. */
  lemma RotatedIff(w: World, request: nat, first: Token, second: Token)
    requires request in w.running && w.running[request].Deleted?
    ensures var (w', r) := CreateStep(w, request, first, second);
            && (r.Ok? <==> first !in w.live || second !in w.live)
            && w'.running == w.running - {request}
            && (r.Ok? ==> StoredNew(w.live, w'.live, first, second, r.value, w.running[request].user))
            && (r.Err? ==> w'.live == w.live)
  {
  }

  /** A refresh that nothing runs in between succeeds exactly with a stored token that is not expired, when one of the proposals is
      new or is that token; then that token is replaced by the new one. */
  lemma RefreshedIff(w: World, request: nat, token: Token, expired: bool, first: Token, second: Token)
    requires request !in w.running
    ensures var (found, r1) := FindStep(w, request, token, expired);
            if r1.Refused? then found == w && !(token in w.live && !expired)
            else
              && token in w.live && !expired
              && var (w', r) := CreateStep(DeleteStep(found, request).0, request, first, second);
                 && (r.Ok? <==> first !in w.live - {token} || second !in w.live - {token})
                 && (r.Ok? ==> StoredNew(w.live - {token}, w'.live, first, second, r.value, w.live[token]))
                 && (r.Err? ==> w'.live == w.live - {token})
                 && w'.running == w.running
  {
    if token in w.live && !expired {
      assert w.running[request := Found(token, w.live[token])][request := Deleted(token, w.live[token])] - {request} == w.running;
    }
  }

  /** A logout leaves exactly the other users' tokens. */
  lemma LoggedOutIff(w: World, user: User)
    ensures var w' := LogoutStep(w, user);
            && w'.running == w.running
            && forall t :: (t in w'.live <==> t in w.live && w.live[t] != user) && (t in w'.live ==> w'.live[t] == w.live[t])
  {
  }

  /** No refresh has the token in hand or has used it up. */
  predicate Untouched(w: World, t: Token) {
    && (forall p :: p in w.running ==> w.running[p].token != t)
    && (forall i :: 0 <= i < |w.log| && Spends(w.log[i]) ==> w.log[i].token != t)
  }

  predicate AlwaysExpired(events: seq<Event>, t: Token) {
    forall e :: e in events && e.Find? && e.token == t ==> e.expired
  }

  lemma StepKeepsUntouched(w: World, e: Event, t: Token)
    requires Untouched(w, t) && (e.Find? && e.token == t ==> e.expired)
    ensures Untouched(Step(w, e), t)
  {
  }

  lemma {:induction false} RunKeepsUntouched(w: World, events: seq<Event>, t: Token)
    requires Untouched(w, t) && AlwaysExpired(events, t)
    ensures Untouched(Run(w, events), t)
    decreases |events|
  {
    if events != [] {
      assert events[0].Find? && events[0].token == t ==> events[0].expired;
      hide Step, Untouched;
      StepKeepsUntouched(w, events[0], t);
      RunKeepsUntouched(Step(w, events[0]), events[1..], t);
    }
  }

  /** Under every interleaving, a token that is expired whenever a refresh looks for it never gets a successor. */
  lemma ExpiredNeverRotates(events: seq<Event>, t: Token)
    requires AlwaysExpired(events, t)
    ensures forall i :: 0 <= i < |Run(EMPTY, events).log| && Run(EMPTY, events).log[i].Rotated? ==> Run(EMPTY, events).log[i].token != t
  {
    RunKeepsUntouched(EMPTY, events, t);
    hide Run;
  }

  // ---------- the service ----------

  class AuthService {
    var live: map<Token, User>
    ghost var running: map<nat, Phase>
    ghost var owner: map<Token, User>
    ghost var log: seq<Entry>

    ghost function State(): World
      reads this
    {
      World(live, running, owner, log)
    }

    constructor ()
      ensures State() == EMPTY
    {
      live, running, owner, log := map[], map[], map[], [];
    }

    /** The row write of `generateTokens`, with its one retry. */
    method StoreToken(user: User, first: Token, second: Token) returns (stored: Option<Token>)
      modifies `live
      ensures stored == Chosen(old(live), first, second)
      ensures live == if stored.Some? then old(live)[stored.value := user] else old(live)
    {
      if first !in live {
        live := live[first := user];
        return Some(first);
      }
      if second !in live {
        live := live[second := user];
        return Some(second);
      }
      stored := None;
    }

    /** The last step of a login or a registration. */
    method IssueTokens(user: User, first: Token, second: Token) returns (r: Result<Token>)
      modifies this
      ensures (State(), r) == LoginStep(old(State()), user, first, second)
    {
      var stored := StoreToken(user, first, second);
      if stored.None? { return Err(ConstraintViolated); }
      owner := owner[stored.value := user];
      log := log + [Issued(stored.value, user)];
      r := Ok(stored.value);
    }

    /** A refresh that nothing runs in between. */
    method RefreshTokens(ghost request: nat, token: Token, expired: bool, first: Token, second: Token) returns (r: Result<Token>)
      requires request !in running
      modifies this
      ensures var found := FindStep(old(State()), request, token, expired);
              if found.1.Refused? then State() == old(State()) && r == Err(Unauthorized)
              else (State(), r) == CreateStep(DeleteStep(found.0, request).0, request, first, second)
    {
      if token !in live { return Err(Unauthorized); }
      if expired { return Err(Unauthorized); }
      var user := live[token];
      live := live - {token};
      ghost var start := running;
      var stored := StoreToken(user, first, second);
      assert start[request := Found(token, user)][request := Deleted(token, user)] - {request} == start;
      if stored.None? {
        log := log + [Lost(token, user)];
        return Err(Unauthorized);
      }
      owner := owner[stored.value := user];
      log := log + [Rotated(token, stored.value, user)];
      r := Ok(stored.value);
    }

    method Logout(user: User)
      modifies this
      ensures State() == LogoutStep(old(State()), user)
    {
      log := log + [Swept(user, |TokensOf(live, user)|)];
      live := map t | t in live && live[t] != user :: live[t];
    }
  }
}
