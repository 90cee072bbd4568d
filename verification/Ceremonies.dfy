/** One-time challenges and the flows built on them: single use, own purpose only, and what a flow
    that fails half-way leaves behind. */
module Ceremonies {
  import opened Models
  import opened Config
  import opened StoreState
  import opened Invariant
  import opened Machine
  import GoogleRules
  import PasskeyRules
  import LinkRuns
  import Frames
  import Runs

  // Google challenges --------------------------------------------------------------------------------

  /** Nothing but a first consumption happens to a stored challenge. */
  predicate GoogleEvolves(x: GoogleChallenge, y: GoogleChallenge) {
    y == x || (x.consumedAt.None? && y == x.(consumedAt := y.consumedAt))
  }

  lemma GoogleOpChallenges(cfg: Settings, s: State, op: GoogleOp, now: Time, id: Uuid)
    requires ChallengesKeyed(s)
    ensures var r := ApplyGoogle(cfg, s, op, now);
            id in r.st.googleChallenges && id !in s.googleChallenges ==>
              && GoogleChallengeDrawn(OnGoogle(op)) == Some(id)
              && r.out == GoogleChallenged(r.st.googleChallenges[id])
              && r.st.googleChallenges[id].id == id && r.st.googleChallenges[id].consumedAt.None?
  {
    hide GoogleRules.LoginOnce, GoogleRules.LoginAfterConflict, GoogleRules.LinkOnce, GoogleRules.RecoverPasswordAccess;
    hide User.CanAuthenticate;
    if op.GoogleLogin? || op.GoogleLoginAfterConflict? || op.GoogleLink? || op.RecoverPasswordAccess? {
      AccountOpsLeaveChallenges(cfg, s, op, now);
    }
  }

  lemma LoginLeavesChallenges(cfg: Settings, s: State, user: User, claims: GoogleClaims, now: Time,
                              draw: GoogleRules.GoogleDraw)
    ensures GoogleRules.InsertIdentityAndLogin(cfg, s, user, claims, now, draw).st.googleChallenges
            == s.googleChallenges
  {
  }

  lemma UnlinkedLeavesChallenges(cfg: Settings, s: State, claims: GoogleClaims, now: Time, draw: GoogleRules.GoogleDraw)
    ensures GoogleRules.LoginUnlinked(cfg, s, claims, now, draw).st.googleChallenges == s.googleChallenges
  {
    hide GoogleRules.InsertIdentityAndLogin, GoogleRules.CanAutoLink, UserByEmail, EmailTaken, User.DisablePassword;
    if GoogleRules.IsAuthoritative(claims) {
      var user := UserByEmail(s.users, claims.email.value);
      if user.Some? {
        var linked := user.value.DisablePassword(draw.passwordHash, now);
        LoginLeavesChallenges(cfg, PutUser(s, linked), linked, claims, now, draw);
      } else {
        var added := GoogleRules.OpenUser(cfg, claims, now, draw);
        LoginLeavesChallenges(cfg, PutUser(s, added), added, claims, now, draw);
      }
    }
  }

  lemma AccountOpsLeaveChallenges(cfg: Settings, s: State, op: GoogleOp, now: Time)
    requires op.GoogleLogin? || op.GoogleLoginAfterConflict? || op.GoogleLink? || op.RecoverPasswordAccess?
    ensures ApplyGoogle(cfg, s, op, now).st.googleChallenges == s.googleChallenges
  {
    hide GoogleRules.LoginUnlinked, User.CanAuthenticate, Session.IsValidFor;
    hide IdentityBySubject, IdentityOfUser, IdentityClashes, IssuerTaken, EmailTaken;
    if op.GoogleLogin? { UnlinkedLeavesChallenges(cfg, s, op.claims, now, op.google); }
  }

  lemma OtherOpsLeaveGoogle(cfg: Settings, retain: bool, s: State, op: Op, now: Time)
    requires !op.OnGoogle?
    ensures Apply(cfg, retain, s, op, now).st.googleChallenges == s.googleChallenges
  {
    hide ApplySession, ApplyUser, ApplyLink, ApplyPasskey;
    assert Frames.Accounts(s, s) == Frames.PasskeyTables(s, s) == s;
    match op
    case OnSessions(x) => Frames.SessionOpsOnAccounts(cfg, s, s, x, now);
    case OnUsers(x) => Frames.UserOpsOnAccounts(cfg, s, s, x, now);
    case OnLinks(x) => Frames.LinkOpFrame(cfg, retain, s, x, now);
    case OnPasskeys(x) => Frames.PasskeyOpsOnPasskeys(cfg, s, s, x, now);
  }

  lemma Keyed(cfg: Settings, s: State)
    requires Inv(cfg, s)
    ensures ChallengesKeyed(s)
  {
  }

  // Where a stored challenge comes from ----------------------------------------------------------------

  /** Step `k` begins the Google flow of `c`. */
  ghost predicate BeginsGoogle(cfg: Settings, retain: bool, ws: seq<World>, ops: seq<Op>, k: nat, c: GoogleChallenge) {
    && k < |ops| && k + 1 < |ws| && GoogleChallengeDrawn(ops[k]) == Some(c.id) && c.consumedAt.None?
    && Apply(cfg, retain, ws[k].st, ops[k], ws[k + 1].at).out == GoogleChallenged(c)
  }

  /** Every stored challenge was begun once, earlier, and is as it was but for its consumption. */
  lemma {:induction false} GoogleOrigin(cfg: Settings, retain: bool, ws: seq<World>, ops: seq<Op>, i: nat, id: Uuid)
    returns (b: nat, c: GoogleChallenge)
    requires cfg.Valid() && IsRun(cfg, retain, ws, ops) && i < |ws| && id in ws[i].st.googleChallenges
    ensures b < i && c.id == id && BeginsGoogle(cfg, retain, ws, ops, b, c)
    ensures GoogleEvolves(c, ws[i].st.googleChallenges[id])
  {
    hide Inv, Apply;
    if i > 0 {
      var w, w', op := ws[i - 1], ws[i], ops[i - 1];
      Runs.Reachable(cfg, retain, ws, ops, i - 1);
      Runs.StepEvolves(cfg, retain, ws, ops, i - 1);
      Keyed(cfg, w.st);
      if id in w.st.googleChallenges {
        b, c := GoogleOrigin(cfg, retain, ws, ops, i - 1, id);
      } else {
        b, c := i - 1, w'.st.googleChallenges[id];
        NewGoogleChallenge(cfg, retain, w.st, op, w'.at, id);
      }
    }
  }

  lemma NewGoogleChallenge(cfg: Settings, retain: bool, s: State, op: Op, now: Time, id: Uuid)
    requires ChallengesKeyed(s)
    ensures var r := Apply(cfg, retain, s, op, now);
            id in r.st.googleChallenges && id !in s.googleChallenges ==>
              && GoogleChallengeDrawn(op) == Some(id) && r.out == GoogleChallenged(r.st.googleChallenges[id])
              && r.st.googleChallenges[id].id == id && r.st.googleChallenges[id].consumedAt.None?
  {
    hide ApplyGoogle;
    if op.OnGoogle? {
      GoogleOpChallenges(cfg, s, op.google, now, id);
    } else {
      OtherOpsLeaveGoogle(cfg, retain, s, op, now);
    }
  }

  lemma {:induction false} GoogleAlong(cfg: Settings, retain: bool, ws: seq<World>, ops: seq<Op>, i: nat, j: nat,
                                       id: Uuid)
    requires cfg.Valid() && IsRun(cfg, retain, ws, ops) && i <= j < |ws|
    requires id in ws[i].st.googleChallenges && id in ws[j].st.googleChallenges
    ensures GoogleEvolves(ws[i].st.googleChallenges[id], ws[j].st.googleChallenges[id])
    decreases j
  {
    hide Inv, Apply;
    if i < j {
      Runs.Reachable(cfg, retain, ws, ops, i);
      Runs.Reachable(cfg, retain, ws, ops, j - 1);
      Runs.StepEvolves(cfg, retain, ws, ops, j - 1);
      Keyed(cfg, ws[j - 1].st);
      LinkRuns.RecordGrows(cfg, retain, ws, ops, i, j - 1);
      NewGoogleChallenge(cfg, retain, ws[j - 1].st, ops[j - 1], ws[j].at, id);
      GoogleAlong(cfg, retain, ws, ops, i, j - 1, id);
    }
  }

  /** Step `k` consumes challenge `id`, whether or not its origin then turns out to be right. */
  ghost predicate SpendsGoogle(ws: seq<World>, ops: seq<Op>, k: nat, id: Uuid) {
    && k < |ops| && k + 1 < |ws| && ops[k].OnGoogle? && ops[k].google.ConsumeGoogle? && ops[k].google.id == id
    && ops[k].google.origin.Some?
    && GoogleConsumable(ws[k].st.googleChallenges, id, ops[k].google.purpose, ws[k + 1].at, ops[k].google.user)
  }

  lemma SpentIsMarked(cfg: Settings, retain: bool, ws: seq<World>, ops: seq<Op>, k: nat, id: Uuid)
    requires cfg.Valid() && IsRun(cfg, retain, ws, ops) && SpendsGoogle(ws, ops, k, id)
    ensures id in ws[k + 1].st.googleChallenges && ws[k + 1].st.googleChallenges[id].consumedAt.Some?
  {
    hide Inv;
    Runs.Reachable(cfg, retain, ws, ops, k);
    Runs.StepEvolves(cfg, retain, ws, ops, k);
    Keyed(cfg, ws[k].st);
  }

  /** A Google challenge is consumed at most once in a run, ... */
  lemma GoogleSpentOnce(cfg: Settings, retain: bool, ws: seq<World>, ops: seq<Op>, k: nat, m: nat, id: Uuid)
    requires cfg.Valid() && IsRun(cfg, retain, ws, ops) && k <= m
    requires SpendsGoogle(ws, ops, k, id) && SpendsGoogle(ws, ops, m, id)
    ensures k == m
  {
    hide Inv, Apply;
    if k < m {
      SpentIsMarked(cfg, retain, ws, ops, k, id);
      GoogleAlong(cfg, retain, ws, ops, k + 1, m, id);
    }
  }

  /** ... only after it was begun, before it expires, and only for its own purpose and user. */
  lemma GoogleSpentAsBegun(cfg: Settings, retain: bool, ws: seq<World>, ops: seq<Op>, k: nat, id: Uuid)
    returns (b: nat, c: GoogleChallenge)
    requires cfg.Valid() && IsRun(cfg, retain, ws, ops) && SpendsGoogle(ws, ops, k, id)
    ensures b < k && c.id == id && BeginsGoogle(cfg, retain, ws, ops, b, c)
    ensures ops[k].google.purpose == c.purpose && ops[k].google.user == c.userId && ws[k + 1].at < c.expiresAt
    ensures Apply(cfg, retain, ws[k].st, ops[k], ws[k + 1].at).out.GoogleChallenged? <==>
              Some(c.origin) == ops[k].google.origin && c.clientId == cfg.googleClientId
  {
    b, c := GoogleOrigin(cfg, retain, ws, ops, k, id);
  }

  // Passkey challenges ---------------------------------------------------------------------------------

  predicate PasskeyEvolves(x: PasskeyChallenge, y: PasskeyChallenge) {
    y == x || (x.consumedAt.None? && y == x.(consumedAt := y.consumedAt))
  }

  ghost predicate BeginsPasskey(cfg: Settings, retain: bool, ws: seq<World>, ops: seq<Op>, k: nat,
                                c: PasskeyChallenge) {
    && k < |ops| && k + 1 < |ws| && PasskeyChallengeDrawn(ops[k]) == Some(c.id) && c.consumedAt.None?
    && Apply(cfg, retain, ws[k].st, ops[k], ws[k + 1].at).out == PasskeyChallenged(c)
  }

  lemma NewPasskeyChallenge(cfg: Settings, retain: bool, s: State, op: Op, now: Time, id: Uuid)
    requires ChallengesKeyed(s)
    ensures var r := Apply(cfg, retain, s, op, now);
            id in r.st.passkeyChallenges && id !in s.passkeyChallenges ==>
              && PasskeyChallengeDrawn(op) == Some(id) && r.out == PasskeyChallenged(r.st.passkeyChallenges[id])
              && r.st.passkeyChallenges[id].id == id && r.st.passkeyChallenges[id].consumedAt.None?
  {
    hide ApplySession, ApplyUser, ApplyLink, ApplyGoogle, ApplyPasskey;
    assert Frames.Accounts(s, s) == Frames.GoogleTables(s, s) == s;
    match op
    case OnSessions(x) => Frames.SessionOpsOnAccounts(cfg, s, s, x, now);
    case OnUsers(x) => Frames.UserOpsOnAccounts(cfg, s, s, x, now);
    case OnLinks(x) => Frames.LinkOpFrame(cfg, retain, s, x, now);
    case OnGoogle(x) => Frames.GoogleOpsOnGoogle(cfg, s, s, x, now);
    case OnPasskeys(x) => PasskeyOpChallenges(cfg, s, x, now, id);
  }

  lemma PasskeyOpChallenges(cfg: Settings, s: State, op: PasskeyOp, now: Time, id: Uuid)
    requires ChallengesKeyed(s)
    ensures var r := ApplyPasskey(cfg, s, op, now);
            id in r.st.passkeyChallenges && id !in s.passkeyChallenges ==>
              && PasskeyChallengeDrawn(OnPasskeys(op)) == Some(id)
              && r.out == PasskeyChallenged(r.st.passkeyChallenges[id])
              && r.st.passkeyChallenges[id].id == id && r.st.passkeyChallenges[id].consumedAt.None?
  {
    hide User.CanAuthenticate, Session.IsValidFor, PasskeyRules.AcceptedPasskey, UsablePasskeys, CredentialTaken;
  }

  lemma {:induction false} PasskeyOrigin(cfg: Settings, retain: bool, ws: seq<World>, ops: seq<Op>, i: nat, id: Uuid)
    returns (b: nat, c: PasskeyChallenge)
    requires cfg.Valid() && IsRun(cfg, retain, ws, ops) && i < |ws| && id in ws[i].st.passkeyChallenges
    ensures b < i && c.id == id && BeginsPasskey(cfg, retain, ws, ops, b, c)
    ensures PasskeyEvolves(c, ws[i].st.passkeyChallenges[id])
  {
    hide Inv, Apply;
    if i > 0 {
      var w, w', op := ws[i - 1], ws[i], ops[i - 1];
      Runs.Reachable(cfg, retain, ws, ops, i - 1);
      Runs.StepEvolves(cfg, retain, ws, ops, i - 1);
      Keyed(cfg, w.st);
      if id in w.st.passkeyChallenges {
        b, c := PasskeyOrigin(cfg, retain, ws, ops, i - 1, id);
      } else {
        b, c := i - 1, w'.st.passkeyChallenges[id];
        NewPasskeyChallenge(cfg, retain, w.st, op, w'.at, id);
      }
    }
  }

  lemma {:induction false} PasskeyAlong(cfg: Settings, retain: bool, ws: seq<World>, ops: seq<Op>, i: nat, j: nat,
                                        id: Uuid)
    requires cfg.Valid() && IsRun(cfg, retain, ws, ops) && i <= j < |ws|
    requires id in ws[i].st.passkeyChallenges && id in ws[j].st.passkeyChallenges
    ensures PasskeyEvolves(ws[i].st.passkeyChallenges[id], ws[j].st.passkeyChallenges[id])
    decreases j
  {
    hide Inv, Apply;
    if i < j {
      Runs.Reachable(cfg, retain, ws, ops, i);
      Runs.Reachable(cfg, retain, ws, ops, j - 1);
      Runs.StepEvolves(cfg, retain, ws, ops, j - 1);
      Keyed(cfg, ws[j - 1].st);
      LinkRuns.RecordGrows(cfg, retain, ws, ops, i, j - 1);
      NewPasskeyChallenge(cfg, retain, ws[j - 1].st, ops[j - 1], ws[j].at, id);
      PasskeyAlong(cfg, retain, ws, ops, i, j - 1, id);
    }
  }

  ghost predicate SpendsPasskey(cfg: Settings, retain: bool, ws: seq<World>, ops: seq<Op>, k: nat, id: Uuid) {
    && k < |ops| && k + 1 < |ws| && ops[k].OnPasskeys? && ops[k].passkey.ConsumePasskey? && ops[k].passkey.id == id
    && Apply(cfg, retain, ws[k].st, ops[k], ws[k + 1].at).out.PasskeyChallenged?
  }

  lemma PasskeySpentIsMarked(cfg: Settings, retain: bool, ws: seq<World>, ops: seq<Op>, k: nat, id: Uuid)
    requires cfg.Valid() && IsRun(cfg, retain, ws, ops) && SpendsPasskey(cfg, retain, ws, ops, k, id)
    ensures id in ws[k].st.passkeyChallenges && ws[k].st.passkeyChallenges[id].consumedAt.None?
    ensures id in ws[k + 1].st.passkeyChallenges && ws[k + 1].st.passkeyChallenges[id].consumedAt.Some?
  {
    hide Inv;
    Runs.Reachable(cfg, retain, ws, ops, k);
    Runs.StepEvolves(cfg, retain, ws, ops, k);
    Keyed(cfg, ws[k].st);
  }

  /** A passkey ceremony's challenge succeeds at most once in a run, ... */
  lemma PasskeySpentOnce(cfg: Settings, retain: bool, ws: seq<World>, ops: seq<Op>, k: nat, m: nat, id: Uuid)
    requires cfg.Valid() && IsRun(cfg, retain, ws, ops) && k <= m
    requires SpendsPasskey(cfg, retain, ws, ops, k, id) && SpendsPasskey(cfg, retain, ws, ops, m, id)
    ensures k == m
  {
    hide Apply;
    PasskeySpentIsMarked(cfg, retain, ws, ops, k, id);
    PasskeySpentIsMarked(cfg, retain, ws, ops, m, id);
    if k < m { PasskeyAlong(cfg, retain, ws, ops, k + 1, m, id); }
  }

  /** ... only after it was begun, before it expires, and only for its purpose, user and family. */
  lemma PasskeySpentAsBegun(cfg: Settings, retain: bool, ws: seq<World>, ops: seq<Op>, k: nat, id: Uuid)
    returns (b: nat, c: PasskeyChallenge)
    requires cfg.Valid() && IsRun(cfg, retain, ws, ops) && SpendsPasskey(cfg, retain, ws, ops, k, id)
    ensures b < k && c.id == id && BeginsPasskey(cfg, retain, ws, ops, b, c)
    ensures ops[k].passkey.purpose == c.purpose && ops[k].passkey.user == c.userId
    ensures ops[k].passkey.family == c.familyId && ws[k + 1].at < c.expiresAt
  {
    b, c := PasskeyOrigin(cfg, retain, ws, ops, k, id);
  }

  // Flows of several transactions ------------------------------------------------------------------------

  /** Only the challenge of this ceremony was spent. */
  predicate OnlySpent(a: State, b: State, id: Uuid, now: Time) {
    id in a.passkeyChallenges && b == PutPasskeyChallenge(a, a.passkeyChallenges[id].(consumedAt := Some(now)))
  }

  /** A refused reauthentication leaves everything as it was, or only its challenge spent: the use of
      the passkey, already written, goes back with the session check that failed after it. */
  lemma FailedReauthentication(s: State, p: Principal, ceremony: Uuid, origin: Option<string>,
                               a: PasskeyRules.Assertion, now: Time)
    ensures var r := PasskeyRules.FinishReauthentication(s, p, ceremony, origin, a, now);
            && (r.out.Rejected? ==> r.st == s || OnlySpent(s, r.st, ceremony, now))
            && (r.out == Rejected(InvalidSession) ==>
                  && OnlySpent(s, r.st, ceremony, now) && r.st.passkeys == s.passkeys
                  && s.passkeyChallenges[ceremony].consumedAt.None?)
  {
    hide PasskeyRules.AcceptedPasskey, User.CanAuthenticate, Session.IsValidFor;
  }

  /** A login transaction that issues no session leaves the store as it was: either nothing had been
      written when it gave up and committed, or the conflict that ended it undid what was. */
  lemma FailedLoginChangesNothing(cfg: Settings, s: State, claims: GoogleClaims, now: Time,
                                  draw: GoogleRules.GoogleDraw, retry: Fresh)
    ensures var r := GoogleRules.LoginOnce(cfg, s, claims, now, draw); r.out.SessionIssued? || r.st == s
    ensures var r := GoogleRules.LoginAfterConflict(cfg, s, claims, now, retry); r.out.SessionIssued? || r.st == s
  {
    hide GoogleRules.LoginUnlinked, IdentityBySubject, User.CanAuthenticate;
    GoogleRules.RefusalWritesNothing(cfg, s, claims, now, draw);
  }

  /** A Google login that fails leaves users, identities and sessions exactly as they were. */
  lemma FailedGoogleLogin(cfg: Settings, s: State, id: Uuid, origin: Option<string>, claims: Option<GoogleClaims>,
                          now: Time, spentAt: Time, draw: GoogleRules.GoogleDraw, retry: Fresh)
    ensures var r := GoogleRules.FinishLogin(cfg, s, id, origin, claims, now, spentAt, draw, retry);
            r.out.SessionIssued? || (r.st == s.(googleChallenges := r.st.googleChallenges)
                                     && (r.st.googleChallenges != s.googleChallenges ==>
                                           GoogleConsumable(s.googleChallenges, id, GoogleLoginPurpose, spentAt, None)))
  {
    hide GoogleRules.LoginOnce, GoogleRules.LoginAfterConflict;
    var spent := GoogleRules.Consume(cfg, s, id, GoogleLoginPurpose, origin, None, spentAt);
    if claims.Some? { FailedLoginChangesNothing(cfg, spent.st, claims.value, now, draw, retry); }
  }

  /** The first Google login of an account that allows it: it fails exactly when the account has a
      Google identity already or a drawn identifier is taken, and only when it succeeds is the
      password disabled, although it was disabled before either came to light. */
  lemma ConflictAfterDisabling(cfg: Settings, s: State, user: User, claims: GoogleClaims, now: Time,
                               draw: GoogleRules.GoogleDraw)
    requires cfg.googleAccountMode != LinkedOnly && GoogleRules.IsAuthoritative(claims)
    requires UserByEmail(s.users, claims.email.value) == Some(user) && GoogleRules.CanAutoLink(user, claims, now)
    requires !IdentityTaken(s.identities, GOOGLE_ISSUER, claims.subject)
    requires user.id in s.users && s.users[user.id] == user
    ensures var r := GoogleRules.LoginOnce(cfg, s, claims, now, draw);
            && (r.out.Rejected? <==>
                  || IssuerTaken(s.identities, user.id, GOOGLE_ISSUER) || draw.identityId in s.identities
                  || draw.session.sessionId in s.sessions || TokenTaken(s.sessions, Sha256(draw.session.refreshToken)))
            && user.id in r.st.users
            && (if r.out.Rejected? then r.st == s
                else !r.st.users[user.id].passwordLoginEnabled && r.st.users[user.id].passwordHash == draw.passwordHash)
  {
    hide UserByEmail;
  }

  lemma RefusedLinkChangesNothing(cfg: Settings, s: State, p: Principal, claims: GoogleClaims, now: Time, id: Uuid)
    ensures GoogleRules.LinkOnce(cfg, s, p, claims, now, id).out.Rejected? ==>
              GoogleRules.LinkOnce(cfg, s, p, claims, now, id).st == s
    ensures GoogleRules.LinkedAfterConflict(s, p, claims, now).st == s
  {
    hide IdentityBySubject, IssuerTaken, IdentityClashes, User.CanAuthenticate, Session.IsValidFor;
  }

  /** Linking that fails leaves users, identities and sessions as they were, too. */
  lemma FailedGoogleLink(cfg: Settings, s: State, p: Principal, challenge: Uuid, origin: Option<string>,
                         claims: Option<GoogleClaims>, now: Time, spentAt: Time, id: Uuid)
    ensures var r := GoogleRules.FinishLink(cfg, s, p, challenge, origin, claims, now, spentAt, id);
            r.out.Rejected? ==> r.st == s.(googleChallenges := r.st.googleChallenges)
  {
    hide GoogleRules.LinkOnce, GoogleRules.LinkedAfterConflict;
    var spent := GoogleRules.Consume(cfg, s, challenge, GoogleLinkPurpose, origin, Some(p.userId), spentAt);
    if claims.Some? { RefusedLinkChangesNothing(cfg, spent.st, p, claims.value, now, id); }
  }
}
