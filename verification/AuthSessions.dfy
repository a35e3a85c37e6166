/** Refresh-token rotation (backend/services/identity/auth.py): the atomic script, the checks around it
    that are not atomic, and every interleaving of refreshes with log-ins, log-outs, revocations and
    expiring keys. Tokens cannot be forged and identifiers are never drawn twice. */
module AuthSessions {

  type Jti = nat
  type Family = nat
  type UserId = nat
  type Request = nat

  datatype Token = Token(jti: Jti, family: Family, user: UserId, version: nat)

  datatype User = User(active: bool, version: nat)

  /** The two kinds of Redis keys and the user rows. A family key holds the one valid jti; a grace record,
      kept under a jti that was rotated away, holds the token that replaced it. */
  datatype Store = Store(family: map<Family, Jti>, grace: map<Jti, Token>, users: map<UserId, User>)

  datatype Outcome = Rotated(token: Token) | Grace(token: Token) | Replay | Revoked

  predicate Granted(o: Outcome) {
    o.Rotated? || o.Grace?
  }

  function Without<K, V>(m: map<K, V>, k: K): map<K, V> {
    m - {k}
  }

  /** `_ROTATE_LUA`: compare and rewrite in one step. */
  function RotateOutcome(s: Store, presented: Token, issued: Token): Outcome {
    if presented.family !in s.family then Revoked
    else if s.family[presented.family] == presented.jti then Rotated(issued)
    else if presented.jti in s.grace then Grace(s.grace[presented.jti])
    else Replay
  }

  function Rotate(s: Store, presented: Token, issued: Token, graceSeconds: int): Store {
    match RotateOutcome(s, presented, issued)
    case Rotated(_) =>
      s.(family := s.family[presented.family := issued.jti],
         grace := if graceSeconds > 0 then s.grace[presented.jti := issued] else s.grace)
    case Replay => s.(family := Without(s.family, presented.family))
    case _ => s
  }

  datatype Verdict = Fit | Disabled | Outdated

  /** The check against the user row: an outdated token takes its family with it, a disabled account does not. */
  function Judge(s: Store, token: Token): Verdict {
    if token.user !in s.users || !s.users[token.user].active then Disabled
    else if s.users[token.user].version != token.version then Outdated
    else Fit
  }

  function CheckUser(s: Store, token: Token): Store {
    if Judge(s, token) == Outdated then s.(family := Without(s.family, token.family)) else s
  }

  /** A refresh between its steps: past the first look at the family, or holding freshly signed tokens. */
  datatype Flight = Looked(token: Token) | Minted(token: Token, issued: Token)

  datatype Answer = Answer(presented: Token, returned: Token)

  /** The store, the refreshes under way, and history: every token signed, the jtis each family has
      registered in order, the token that replaced each jti, and the refreshes that succeeded. */
  datatype World = World(
    store: Store, flights: map<Request, Flight>, signed: map<Jti, Token>,
    chain: map<Family, seq<Jti>>, successor: map<Jti, Token>, answers: seq<Answer>)

  datatype Step =
    | Login(user: UserId, family: Family, jti: Jti)
    | Look(r: Request, token: Token)
    | Check(r: Request, jti: Jti)
    | Turn(r: Request)
    | Abandon(r: Request)
    | Logout(token: Token)
    | SetUser(user: UserId, row: User)
    | FamilyExpires(family: Family)
    | GraceExpires(jti: Jti)

  predicate Signed(w: World, t: Token) {
    t.jti in w.signed && w.signed[t.jti] == t
  }

  predicate Enabled(w: World, step: Step) {
    match step
    case Login(user, family, jti) =>
      user in w.store.users && w.store.users[user].active && family !in w.chain && jti !in w.signed
    case Look(r, token) => r !in w.flights && Signed(w, token)
    case Check(r, jti) => r in w.flights && w.flights[r].Looked? && jti !in w.signed
    case Turn(r) => r in w.flights && w.flights[r].Minted?
    case Abandon(r) => r in w.flights
    case Logout(token) => Signed(w, token)
    case SetUser(user, row) => user in w.store.users ==> w.store.users[user].version <= row.version
    case _ => true
  }

  /** `_issue_pair`: a log-in signs a token and opens its family. */
  function Open(w: World, user: UserId, family: Family, jti: Jti): World
    requires user in w.store.users
  {
    w.(store := w.store.(family := w.store.family[family := jti]),
       signed := w.signed[jti := Token(jti, family, user, w.store.users[user].version)],
       chain := w.chain[family := [jti]])
  }

  function Mint(w: World, r: Request, jti: Jti): World
    requires r in w.flights
  {
    var token := w.flights[r].token;
    var t := Token(jti, token.family, token.user, token.version);
    w.(flights := w.flights[r := Minted(token, t)], signed := w.signed[jti := t])
  }

  /** The history of a rotation that went through. */
  function Extend(w: World, token: Token, issued: Token): World {
    var registered := if token.family in w.chain then w.chain[token.family] else [];
    w.(chain := w.chain[token.family := registered + [issued.jti]], successor := w.successor[token.jti := issued],
       answers := w.answers + [Answer(token, issued)])
  }

  function Apply(graceSeconds: int, w: World, step: Step): World
    requires Enabled(w, step)
  {
    match step
    case Login(user, family, jti) => Open(w, user, family, jti)
    case Look(r, token) =>
      if token.family in w.store.family then w.(flights := w.flights[r := Looked(token)]) else w
    case Check(r, jti) =>
      var token := w.flights[r].token;
      if Judge(w.store, token) == Fit then Mint(w, r, jti)
      else w.(store := CheckUser(w.store, token), flights := Without(w.flights, r))
    case Turn(r) =>
      var token, issued := w.flights[r].token, w.flights[r].issued;
      var w1 := w.(store := Rotate(w.store, token, issued, graceSeconds), flights := Without(w.flights, r));
      (match RotateOutcome(w.store, token, issued)
       case Rotated(t) => Extend(w1, token, t)
       case Grace(t) => w1.(answers := w.answers + [Answer(token, t)])
       case _ => w1)
    case Abandon(r) => w.(flights := Without(w.flights, r))
    case Logout(token) => w.(store := w.store.(family := Without(w.store.family, token.family)))
    case SetUser(user, row) => w.(store := w.store.(users := w.store.users[user := row]))
    case FamilyExpires(family) => w.(store := w.store.(family := Without(w.store.family, family)))
    case GraceExpires(jti) => w.(store := w.store.(grace := Without(w.store.grace, jti)))
  }

  // ---- The invariant ----

  /** The jtis a family has registered form a chain: each but the last was replaced by the next. */
  ghost predicate Linked(c: seq<Jti>, f: Family, signed: map<Jti, Token>, successor: map<Jti, Token>) {
    && c != []
    && (forall i :: 0 <= i < |c| ==> c[i] in signed && signed[c[i]].family == f)
    && (forall i, j :: 0 <= i < j < |c| ==> c[i] != c[j])
    && (forall i :: 0 <= i < |c| - 1 ==> c[i] in successor && successor[c[i]].jti == c[i + 1])
    && c[|c| - 1] !in successor
  }

  /** The family key, while it lives, names the last of the chain. */
  ghost predicate ChainOk(w: World, f: Family)
    requires f in w.chain
  {
    var c := w.chain[f];
    Linked(c, f, w.signed, w.successor) && (f in w.store.family ==> w.store.family[f] == c[|c| - 1])
  }

  predicate Registered(w: World, j: Jti) {
    j in w.signed && w.signed[j].family in w.chain && j in w.chain[w.signed[j].family]
  }

  ghost predicate FlightOk(w: World, r: Request)
    requires r in w.flights
  {
    var fl := w.flights[r];
    && Signed(w, fl.token) && fl.token.family in w.chain
    && (fl.Minted? ==> Signed(w, fl.issued) && fl.issued.family == fl.token.family && !Registered(w, fl.issued.jti))
    && (fl.Minted? ==> forall q :: q in w.flights && q != r && w.flights[q].Minted? ==> w.flights[q].issued.jti != fl.issued.jti)
  }

  /** What a jti was replaced by: grace records and answers only ever repeat it. */
  ghost predicate LinkOk(w: World, j: Jti) {
    && (j in w.successor ==> Registered(w, j) && Signed(w, w.successor[j]))
    && (j in w.store.grace ==> j in w.successor && w.store.grace[j] == w.successor[j])
    && (j in w.signed ==> w.signed[j].jti == j && w.signed[j].family in w.chain)
  }

  ghost predicate AnswerOk(w: World, a: Answer) {
    Signed(w, a.presented) && a.presented.jti in w.successor && a.returned == w.successor[a.presented.jti]
  }

  ghost predicate Inv(w: World) {
    && w.store.family.Keys <= w.chain.Keys
    && (forall f {:trigger ChainOk(w, f)} :: f in w.chain ==> ChainOk(w, f))
    && (forall r {:trigger FlightOk(w, r)} :: r in w.flights ==> FlightOk(w, r))
    && (forall j :: LinkOk(w, j))
    && (forall a {:trigger AnswerOk(w, a)} :: a in w.answers ==> AnswerOk(w, a))
  }

  /** Taking keys away, or changing a user row, disturbs nothing. */
  lemma LessKeeps(w: World, w1: World)
    requires Inv(w)
    requires w1.store.family.Keys <= w.store.family.Keys && (forall f :: f in w1.store.family ==> w1.store.family[f] == w.store.family[f])
    requires w1.store.grace.Keys <= w.store.grace.Keys && (forall j :: j in w1.store.grace ==> w1.store.grace[j] == w.store.grace[j])
    requires w1.flights.Keys <= w.flights.Keys && (forall r :: r in w1.flights ==> w1.flights[r] == w.flights[r])
    requires w1.signed == w.signed && w1.chain == w.chain && w1.successor == w.successor && w1.answers == w.answers
    ensures Inv(w1)
  {
    forall f | f in w1.chain ensures ChainOk(w1, f) {
      assert ChainOk(w, f);
    }
    forall r | r in w1.flights ensures FlightOk(w1, r) {
      assert FlightOk(w, r);
    }
    forall j ensures LinkOk(w1, j) {
      assert LinkOk(w, j);
    }
    forall a | a in w1.answers ensures AnswerOk(w1, a) {
      assert AnswerOk(w, a);
    }
  }

  lemma LoginKeeps(g: int, w: World, user: UserId, family: Family, jti: Jti)
    requires Inv(w) && Enabled(w, Login(user, family, jti))
    ensures Inv(Apply(g, w, Login(user, family, jti)))
  {
    var w1 := Apply(g, w, Login(user, family, jti));
    assert LinkOk(w, jti);
    forall f | f in w1.chain ensures ChainOk(w1, f) {
      if f != family {
        assert ChainOk(w, f);
      }
    }
    forall r | r in w1.flights ensures FlightOk(w1, r) {
      assert FlightOk(w, r);
    }
    forall j ensures LinkOk(w1, j) {
      assert LinkOk(w, j);
    }
    forall a | a in w1.answers ensures AnswerOk(w1, a) {
      assert AnswerOk(w, a);
    }
  }

  lemma MintKeeps(g: int, w: World, r: Request, jti: Jti)
    requires Inv(w) && Enabled(w, Check(r, jti)) && Judge(w.store, w.flights[r].token) == Fit
    ensures Inv(Apply(g, w, Check(r, jti)))
  {
    var w1 := Apply(g, w, Check(r, jti));
    assert FlightOk(w, r);
    forall f | f in w1.chain ensures ChainOk(w1, f) {
      assert ChainOk(w, f);
    }
    forall q | q in w1.flights ensures FlightOk(w1, q) {
      assert FlightOk(w, q);
      if q == r {
        assert ChainOk(w, w1.flights[r].token.family);
        forall p | p in w1.flights && p != r && w1.flights[p].Minted? ensures w1.flights[p].issued.jti != jti {
          assert FlightOk(w, p);
        }
      }
    }
    forall j ensures LinkOk(w1, j) {
      assert LinkOk(w, j);
    }
    forall a | a in w1.answers ensures AnswerOk(w1, a) {
      assert AnswerOk(w, a);
    }
  }

  lemma LinkedExtends(c: seq<Jti>, f: Family, signed: map<Jti, Token>, successor: map<Jti, Token>, issued: Token)
    requires Linked(c, f, signed, successor) && issued.jti in signed && signed[issued.jti].family == f
    requires issued.jti !in c && issued.jti !in successor
    ensures Linked(c + [issued.jti], f, signed, successor[c[|c| - 1] := issued])
  {
    var c1, successor1 := c + [issued.jti], successor[c[|c| - 1] := issued];
    forall i | 0 <= i < |c1| - 1 ensures c1[i] in successor1 && successor1[c1[i]].jti == c1[i + 1] {
      if i < |c| - 1 {
        assert c1[i] == c[i] && c1[i + 1] == c[i + 1];
      }
    }
  }

  lemma LinkedElsewhere(c: seq<Jti>, f: Family, signed: map<Jti, Token>, successor: map<Jti, Token>, token: Token, issued: Token)
    requires Linked(c, f, signed, successor) && token.jti !in c
    ensures Linked(c, f, signed, successor[token.jti := issued])
  {}

  lemma RotatedChain(g: int, w: World, r: Request, f: Family)
    requires Inv(w) && Enabled(w, Turn(r)) && f in w.chain
    requires RotateOutcome(w.store, w.flights[r].token, w.flights[r].issued).Rotated?
    ensures ChainOk(Apply(g, w, Turn(r)), f)
  {
    var token, issued := w.flights[r].token, w.flights[r].issued;
    assert FlightOk(w, r) && ChainOk(w, f) && LinkOk(w, issued.jti);
    if f == token.family {
      LinkedExtends(w.chain[f], f, w.signed, w.successor, issued);
    } else {
      LinkedElsewhere(w.chain[f], f, w.signed, w.successor, token, issued);
    }
  }

  lemma RotatedFlight(g: int, w: World, r: Request, q: Request)
    requires Inv(w) && Enabled(w, Turn(r)) && q in w.flights && q != r
    requires RotateOutcome(w.store, w.flights[r].token, w.flights[r].issued).Rotated?
    ensures FlightOk(Apply(g, w, Turn(r)), q)
  {
    assert FlightOk(w, r) && FlightOk(w, q);
  }

  lemma RotatedKeeps(g: int, w: World, r: Request)
    requires Inv(w) && Enabled(w, Turn(r))
    requires RotateOutcome(w.store, w.flights[r].token, w.flights[r].issued).Rotated?
    ensures Inv(Apply(g, w, Turn(r)))
  {
    var w1 := Apply(g, w, Turn(r));
    var fl := w.flights[r];
    assert FlightOk(w, r);
    assert ChainOk(w, fl.token.family);
    assert fl.token.jti in w.chain[fl.token.family];
    forall f | f in w1.chain ensures ChainOk(w1, f) {
      RotatedChain(g, w, r, f);
    }
    forall q | q in w1.flights ensures FlightOk(w1, q) {
      RotatedFlight(g, w, r, q);
    }
    forall j ensures LinkOk(w1, j) {
      assert LinkOk(w, j);
    }
    forall a | a in w1.answers ensures AnswerOk(w1, a) {
      if a in w.answers {
        assert AnswerOk(w, a);
      }
    }
  }

  lemma AnswerKeeps(w: World, a: Answer)
    requires Inv(w) && AnswerOk(w, a)
    ensures Inv(w.(answers := w.answers + [a]))
  {
    var w1 := w.(answers := w.answers + [a]);
    forall f | f in w1.chain ensures ChainOk(w1, f) {
      assert ChainOk(w, f);
    }
    forall q | q in w1.flights ensures FlightOk(w1, q) {
      assert FlightOk(w, q);
    }
    forall j ensures LinkOk(w1, j) {
      assert LinkOk(w, j);
    }
    forall b | b in w1.answers ensures AnswerOk(w1, b) {
      assert b == a || AnswerOk(w, b);
    }
  }

  lemma TurnKeeps(g: int, w: World, r: Request)
    requires Inv(w) && Enabled(w, Turn(r))
    ensures Inv(Apply(g, w, Turn(r)))
  {
    var fl := w.flights[r];
    var w1 := w.(store := Rotate(w.store, fl.token, fl.issued, g), flights := Without(w.flights, r));
    match RotateOutcome(w.store, fl.token, fl.issued)
    case Rotated(_) => RotatedKeeps(g, w, r);
    case Grace(t) =>
      LessKeeps(w, w1);
      assert FlightOk(w, r) && LinkOk(w, fl.token.jti);
      AnswerKeeps(w1, Answer(fl.token, t));
    case _ => LessKeeps(w, w1);
  }

  lemma StepKeeps(g: int, w: World, step: Step)
    requires Inv(w) && Enabled(w, step)
    ensures Inv(Apply(g, w, step))
  {
    match step
    case Login(user, family, jti) => LoginKeeps(g, w, user, family, jti);
    case Look(r, token) =>
      if token.family in w.store.family {
        LookKeeps(g, w, r, token);
      }
    case Check(r, jti) =>
      if Judge(w.store, w.flights[r].token) == Fit {
        MintKeeps(g, w, r, jti);
      } else {
        LessKeeps(w, Apply(g, w, step));
      }
    case Turn(r) => TurnKeeps(g, w, r);
    case _ => LessKeeps(w, Apply(g, w, step));
  }

  lemma LookKeeps(g: int, w: World, r: Request, token: Token)
    requires Inv(w) && Enabled(w, Look(r, token)) && token.family in w.store.family
    ensures Inv(Apply(g, w, Look(r, token)))
  {
    var w1 := Apply(g, w, Look(r, token));
    forall f | f in w1.chain ensures ChainOk(w1, f) {
      assert ChainOk(w, f);
    }
    forall q | q in w1.flights ensures FlightOk(w1, q) {
      if q != r {
        assert FlightOk(w, q);
      }
    }
    forall j ensures LinkOk(w1, j) {
      assert LinkOk(w, j);
    }
    forall a | a in w1.answers ensures AnswerOk(w1, a) {
      assert AnswerOk(w, a);
    }
  }

  // ---- Whole runs ----

  ghost predicate Begins(w: World) {
    && w.store.family == map[] && w.store.grace == map[] && w.flights == map[]
    && w.signed == map[] && w.chain == map[] && w.successor == map[] && w.answers == []
  }

  ghost predicate IsRun(g: int, worlds: seq<World>, steps: seq<Step>) {
    && |worlds| == |steps| + 1 && Begins(worlds[0])
    && forall i {:trigger steps[i]} :: 0 <= i < |steps| ==> Enabled(worlds[i], steps[i]) && worlds[i + 1] == Apply(g, worlds[i], steps[i])
  }

  lemma {:induction false} RunKeeps(g: int, worlds: seq<World>, steps: seq<Step>, n: nat)
    requires IsRun(g, worlds, steps) && n < |worlds|
    ensures Inv(worlds[n])
  {
    if n > 0 {
      RunKeeps(g, worlds, steps, n - 1);
      StepKeeps(g, worlds[n - 1], steps[n - 1]);
    }
  }

  /** On every run, two successful refreshes that present the same jti hand out the same token. */
  lemma SameJtiSameToken(g: int, worlds: seq<World>, steps: seq<Step>, n: nat, a: Answer, b: Answer)
    requires IsRun(g, worlds, steps) && n < |worlds|
    requires a in worlds[n].answers && b in worlds[n].answers && a.presented.jti == b.presented.jti
    ensures a.returned == b.returned && a.presented == b.presented
  {
    RunKeeps(g, worlds, steps, n);
    assert AnswerOk(worlds[n], a) && AnswerOk(worlds[n], b);
  }

  /** A token handed out is always the next of the presented one in its family's chain. */
  lemma AnswersFollowTheChain(g: int, worlds: seq<World>, steps: seq<Step>, n: nat, a: Answer)
    requires IsRun(g, worlds, steps) && n < |worlds| && a in worlds[n].answers
    ensures var f := a.presented.family;
            && f in worlds[n].chain
            && exists i :: 0 <= i < |worlds[n].chain[f]| - 1 && worlds[n].chain[f][i] == a.presented.jti &&
                           worlds[n].chain[f][i + 1] == a.returned.jti
  {
    var w := worlds[n];
    RunKeeps(g, worlds, steps, n);
    assert AnswerOk(w, a) && LinkOk(w, a.presented.jti);
    var f := a.presented.family;
    assert ChainOk(w, f);
    var i :| 0 <= i < |w.chain[f]| && w.chain[f][i] == a.presented.jti;
    assert i < |w.chain[f]| - 1;
    assert w.chain[f][i + 1] == a.returned.jti;
  }

  // ---- Whose session it is ----

  /** A check signs for the presented user and version, and only when that is the account as it is. */
  lemma CheckSigns(g: int, w: World, r: Request, jti: Jti)
    requires Enabled(w, Check(r, jti))
    ensures var t := w.flights[r].token;
            var w1 := Apply(g, w, Check(r, jti));
            && (jti in w1.signed <==> t.user in w.store.users && w.store.users[t.user] == User(true, t.version))
            && w1.signed == if jti in w1.signed then w.signed[jti := Token(jti, t.family, t.user, t.version)] else w.signed
  {}

  /** All tokens of a family are of one account and one version of its credentials. */
  ghost predicate OneOwner(w: World) {
    forall j, k :: j in w.signed && k in w.signed && w.signed[j].family == w.signed[k].family ==>
      w.signed[j].user == w.signed[k].user && w.signed[j].version == w.signed[k].version
  }

  lemma OneOwnerKeeps(g: int, w: World, step: Step)
    requires Inv(w) && Enabled(w, step) && OneOwner(w)
    ensures OneOwner(Apply(g, w, step))
  {
    match step
    case Login(user, family, jti) =>
      assert forall j :: j in w.signed ==> LinkOk(w, j);
    case Check(r, jti) =>
      assert FlightOk(w, r);
      CheckSigns(g, w, r, jti);
    case _ =>
      assert Apply(g, w, step).signed == w.signed;
  }

  lemma {:induction false} OwnersAlong(g: int, worlds: seq<World>, steps: seq<Step>, n: nat)
    requires IsRun(g, worlds, steps) && n < |worlds|
    ensures OneOwner(worlds[n])
  {
    if n > 0 {
      OwnersAlong(g, worlds, steps, n - 1);
      RunKeeps(g, worlds, steps, n - 1);
      OneOwnerKeeps(g, worlds[n - 1], steps[n - 1]);
    }
  }

  /** On every run a refresh hands out a token of the same session, account and credentials version. */
  lemma AnswersKeepOwner(g: int, worlds: seq<World>, steps: seq<Step>, n: nat, a: Answer)
    requires IsRun(g, worlds, steps) && n < |worlds| && a in worlds[n].answers
    ensures a.returned.family == a.presented.family && a.returned.user == a.presented.user && a.returned.version == a.presented.version
  {
    var w := worlds[n];
    RunKeeps(g, worlds, steps, n);
    OwnersAlong(g, worlds, steps, n);
    AnswersFollowTheChain(g, worlds, steps, n, a);
    var f := a.presented.family;
    assert ChainOk(w, f) && AnswerOk(w, a) && LinkOk(w, a.presented.jti);
    assert a.returned.jti in w.signed && w.signed[a.returned.jti] == a.returned;
  }

  predicate Dead(w: World, f: Family) {
    f in w.chain && f !in w.store.family
  }

  function Success(g: int, w: World, step: Step): bool
    requires Enabled(w, step)
  {
    |Apply(g, w, step).answers| > |w.answers|
  }

  lemma DeadStaysDead(g: int, w: World, step: Step, f: Family)
    requires Inv(w) && Enabled(w, step) && Dead(w, f)
    ensures Dead(Apply(g, w, step), f)
    ensures Success(g, w, step) ==> w.flights[step.r].token.family != f
  {
    if step.Turn? {
      assert FlightOk(w, step.r);
    }
  }

  /** Once a family is dead no later step revives it and no refresh of it succeeds, however it was already
      under way and whatever grace records are still alive. */
  lemma {:induction false} DeadForGood(g: int, worlds: seq<World>, steps: seq<Step>, n: nat, m: nat, f: Family)
    requires IsRun(g, worlds, steps) && n <= m < |worlds| && Dead(worlds[n], f)
    ensures Dead(worlds[m], f)
    ensures m < |steps| && Success(g, worlds[m], steps[m]) ==> worlds[m].flights[steps[m].r].token.family != f
  {
    if m > n {
      DeadForGood(g, worlds, steps, n, m - 1, f);
      RunKeeps(g, worlds, steps, m - 1);
      DeadStaysDead(g, worlds[m - 1], steps[m - 1], f);
    }
    if m < |steps| {
      RunKeeps(g, worlds, steps, m);
      DeadStaysDead(g, worlds[m], steps[m], f);
    }
  }

  /** What kills a living family: log-out, an outdated token reaching the user check, expiry, and a
      jti that is neither current nor in grace; nothing else does. */
  lemma DiesExactlyWhen(g: int, w: World, step: Step, f: Family)
    requires Inv(w) && Enabled(w, step) && f in w.store.family
    ensures Dead(Apply(g, w, step), f) <==>
              || (step.Logout? && step.token.family == f)
              || (step.FamilyExpires? && step.family == f)
              || (step.Check? && w.flights[step.r].token.family == f &&
                  var t := w.flights[step.r].token;
                  t.user in w.store.users && w.store.users[t.user].active && w.store.users[t.user].version != t.version)
              || (step.Turn? && w.flights[step.r].token.family == f &&
                  w.store.family[f] != w.flights[step.r].token.jti && w.flights[step.r].token.jti !in w.store.grace)
  {
    if step.Turn? {
      assert FlightOk(w, step.r);
    }
  }

  /** Two tabs refresh with the same current token. Both succeed with one token, which is then the
      current one, exactly when a grace period is configured; otherwise the second one ends the session. */
  lemma TwoTabs(g: int, w: World, first: Request, second: Request)
    requires Inv(w) && first != second && first in w.flights && second in w.flights
    requires w.flights[first].Minted? && w.flights[second].Minted? && w.flights[first].token == w.flights[second].token
    requires var t := w.flights[first].token; t.family in w.store.family && w.store.family[t.family] == t.jti
    ensures var t, issued := w.flights[first].token, w.flights[first].issued;
            var w1 := Apply(g, w, Turn(first));
            && Enabled(w1, Turn(second))
            && var w2 := Apply(g, w1, Turn(second));
               (if g > 0 then
                  w2.answers == w.answers + [Answer(t, issued), Answer(t, issued)] && t.family in w2.store.family &&
                  w2.store.family[t.family] == issued.jti
                else w2.answers == w.answers + [Answer(t, issued)] && Dead(w2, t.family))
  {
    var t, issued := w.flights[first].token, w.flights[first].issued;
    assert FlightOk(w, first) && ChainOk(w, t.family) && LinkOk(w, t.jti);
    assert t.jti in w.chain[t.family];
  }
}
