/** `AuthService` of backend/services/identity/auth.py as an object over its Redis keys and user rows.
    Signing draws `jti`, a number never drawn before. */
module AuthService {
  import opened A = AuthSessions

  datatype Result = Pair(refresh: Token) | RevokedError | DisabledError | OutdatedError | ReplayError

  /** One refresh with nothing in between: look, check, sign, turn. */
  function RefreshAlone(s: Store, token: Token, jti: Jti, graceSeconds: int): (Store, Result) {
    if token.family !in s.family then (s, RevokedError)
    else
      match Judge(s, token)
      case Disabled => (s, DisabledError)
      case Outdated => (CheckUser(s, token), OutdatedError)
      case Fit =>
        var issued := Token(jti, token.family, token.user, token.version);
        var s1 := Rotate(s, token, issued, graceSeconds);
        match RotateOutcome(s, token, issued)
        case Rotated(t) => (s1, Pair(t))
        case Grace(t) => (s1, Pair(t))
        case Replay => (s1, ReplayError)
        case Revoked => (s1, RevokedError)
  }

  class Service {
    const graceSeconds: int
    var family: map<Family, Jti>
    var grace: map<Jti, Token>
    var users: map<UserId, User>

    constructor (graceSeconds: int, users: map<UserId, User>)
      ensures State() == Store(map[], map[], users) && this.graceSeconds == graceSeconds
    {
      this.graceSeconds, this.users := graceSeconds, users;
      family, grace := map[], map[];
    }

    function State(): Store
      reads this
    {
      Store(family, grace, users)
    }

    /** The script: nothing runs between its commands. */
    method RunRotate(presented: Token, issued: Token) returns (outcome: Outcome)
      modifies this`family, this`grace
      ensures outcome == RotateOutcome(old(State()), presented, issued)
      ensures State() == Rotate(old(State()), presented, issued, graceSeconds)
    {
      if presented.family !in family {
        return Revoked;
      }
      if family[presented.family] == presented.jti {
        family := family[presented.family := issued.jti];
        if graceSeconds > 0 {
          grace := grace[presented.jti := issued];
        }
        return Rotated(issued);
      }
      if presented.jti in grace {
        return Grace(grace[presented.jti]);
      }
      family := Without(family, presented.family);
      return Replay;
    }

    method RotateFamily(presented: Token, issued: Token) returns (result: Result)
      modifies this`family, this`grace
      ensures State() == Rotate(old(State()), presented, issued, graceSeconds)
      ensures var o := RotateOutcome(old(State()), presented, issued);
              result == if Granted(o) then Pair(o.token) else if o.Revoked? then RevokedError else ReplayError
    {
      var outcome := RunRotate(presented, issued);
      match outcome
      case Rotated(t) => return Pair(issued);
      case Grace(t) => return Pair(t);
      case Revoked => return RevokedError;
      case Replay => return ReplayError;
    }

    method IssuePair(user: UserId, fam: Family, jti: Jti) returns (result: Result)
      requires user in users
      modifies this`family
      ensures result == Pair(Token(jti, fam, user, users[user].version))
      ensures State() == old(State()).(family := old(family)[fam := jti])
    {
      var refresh := Token(jti, fam, user, users[user].version);
      family := family[fam := refresh.jti];
      return Pair(refresh);
    }

    method Refresh(token: Token, jti: Jti) returns (result: Result)
      modifies this`family, this`grace
      ensures (State(), result) == RefreshAlone(old(State()), token, jti, graceSeconds)
    {
      if token.family !in family {
        return RevokedError;
      }
      if token.user !in users || !users[token.user].active {
        return DisabledError;
      }
      if users[token.user].version != token.version {
        family := Without(family, token.family);
        return OutdatedError;
      }
      result := RotateFamily(token, Token(jti, token.family, token.user, users[token.user].version));
    }

    method Logout(token: Token)
      modifies this`family
      ensures State() == old(State()).(family := Without(old(family), token.family))
    {
      family := Without(family, token.family);
    }
  }

  /** A refresh alone, seen by its caller, over the keys and rows: which answer comes when, what is handed
      out, and what is left. The session outlives every refusal except an outdated or a replayed token. */
  lemma RefreshMeaning(s: Store, token: Token, jti: Jti, graceSeconds: int)
    ensures var (s1, r) := RefreshAlone(s, token, jti, graceSeconds);
            var live, known := token.family in s.family, token.user in s.users && s.users[token.user].active;
            && (r.RevokedError? <==> !live)
            && (r.DisabledError? <==> live && !known)
            && (r.OutdatedError? <==> live && known && s.users[token.user].version != token.version)
            && (r.ReplayError? <==>
                  live && known && s.users[token.user].version == token.version
                  && s.family[token.family] != token.jti && token.jti !in s.grace)
            && (r.Pair? <==>
                  live && known && s.users[token.user].version == token.version
                  && (s.family[token.family] == token.jti || token.jti in s.grace))
            && (r.Pair? ==> r.refresh == if s.family[token.family] == token.jti then Token(jti, token.family, token.user, token.version)
                                         else s.grace[token.jti])
            && s1.users == s.users
            && s1.grace == (if r.Pair? && s.family[token.family] == token.jti && graceSeconds > 0 then s.grace[token.jti := r.refresh] else s.grace)
            && (token.family in s1.family <==> token.family in s.family && !r.OutdatedError? && !r.ReplayError?)
            && (forall f :: f != token.family ==> (f in s1.family <==> f in s.family) && (f in s.family ==> s1.family[f] == s.family[f]))
            && (r.Pair? && token.jti in s.grace && s.family[token.family] != token.jti ==> s1 == s)
            && (r.Pair? && s.family[token.family] == token.jti ==> s1.family[token.family] == r.refresh.jti == jti)
  {}

  /** The steps of the interleaved model, taken one after the other, are one `Refresh`. */
  lemma StepsAreRefresh(g: int, w: World, r: Request, token: Token, jti: Jti)
    requires Enabled(w, Look(r, token)) && jti !in w.signed
    ensures var (s1, result) := RefreshAlone(w.store, token, jti, g);
            var w1 := Apply(g, w, Look(r, token));
            if token.family !in w.store.family then w1 == w && s1 == w.store
            else
              && Enabled(w1, Abandon(r)) && Apply(g, w1, Abandon(r)).store == w.store && Apply(g, w1, Abandon(r)).flights == w.flights
              && Enabled(w1, Check(r, jti))
              && var w2 := Apply(g, w1, Check(r, jti));
                 if Judge(w.store, token) != Fit then w2.store == s1 && w2.flights == w.flights && w2.answers == w.answers
                 else
                   && Enabled(w2, Turn(r))
                   && var w3 := Apply(g, w2, Turn(r));
                      && w3.store == s1 && w3.flights == w.flights
                      && w3.answers == if result.Pair? then w.answers + [Answer(token, result.refresh)] else w.answers
  {
    assert w.flights[r := Looked(token)] - {r} == w.flights;
  }

  function AnswerTo(g: int, w: World, token: Token, jti: Jti): Result {
    RefreshAlone(w.store, token, jti, g).1
  }

  /** What everybody else does shows in the next refresh: a session just opened is granted one; after a
      log-out or an expiry it is over; a disabled account and an outdated token are told apart; a token that
      was rotated away is a replay once its grace is over. */
  lemma NextRefreshSees(g: int, w: World, step: Step, token: Token, jti: Jti)
    requires Enabled(w, step)
    ensures var r := AnswerTo(g, Apply(g, w, step), token, jti);
            var s := w.store;
            match step
            case Login(user, family, j) => token == Token(j, family, user, s.users[user].version) ==> r == Pair(Token(jti, family, user, token.version))
            case Logout(t) => t.family == token.family ==> r == RevokedError
            case FamilyExpires(f) => f == token.family ==> r == RevokedError
            case SetUser(user, row) =>
              user == token.user && token.family in s.family ==>
                if !row.active then r == DisabledError
                else if row.version != token.version then r == OutdatedError
                else r == ReplayError || r.Pair?
            case GraceExpires(j) =>
              j == token.jti && r.Pair? ==> token.family in s.family && s.family[token.family] == j && r.refresh.jti == jti
            case _ => true
  {}
}
