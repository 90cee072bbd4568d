/** The operations of several transactions are stretches of runs: each transaction is a step with the
    clock reading the source gives it, which `finish_login` and `finish_link` took before the step
    that consumed their challenge. */
module Flows {
  import opened Models
  import opened Config
  import opened StoreState
  import opened Machine
  import GoogleRules
  import PasskeyRules
  import Ceremonies
  import Runs

  predicate NewFamily(s: State, draw: Fresh) {
    forall id :: id in s.sessions ==> s.sessions[id].familyId != draw.familyId
  }

  /** The run goes on with one more step. */
  lemma Extended(cfg: Settings, retain: bool, ws: seq<World>, ops: seq<Op>, op: Op, at: Time)
    returns (ws': seq<World>, ops': seq<Op>)
    requires IsRun(cfg, retain, ws, ops) && FreshFor(ws[|ops|].history, ws[|ops|].st, op)
    ensures IsRun(cfg, retain, ws', ops') && ops' == ops + [op] && ws'[..|ws|] == ws
    ensures ws'[|ws|].at == at && ws'[|ws|].st == Apply(cfg, retain, ws[|ops|].st, op, at).st
  {
    hide Apply, FreshFor;
    var w := ws[|ops|];
    var after := Apply(cfg, retain, w.st, op, at).st;
    var next := World(after, at, Max(w.now, at), Remember(w.history, after));
    Runs.RunExtends(cfg, retain, ws, ops, op, next);
    ws', ops' := ws + [next], ops + [op];
  }

  /** The flow goes on from the run `ws` to the run `ws'`, ends in the store `st`, and acts on the
      reading `first` in its first step and on `later` in the others. */
  ghost predicate Continues(cfg: Settings, retain: bool, ws: seq<World>, ws': seq<World>, ops': seq<Op>, st: State,
                            first: Time, later: Time)
  {
    && IsRun(cfg, retain, ws', ops') && ws <= ws' && ws'[|ops'|].st == st
    && forall i :: |ws| <= i < |ws'| ==> ws'[i].at == if i == |ws| then first else later
  }

  /** `finish_login`: consume on the second reading, log in on the first, try again after a conflict. */
  lemma FinishLoginIsRun(cfg: Settings, retain: bool, ws: seq<World>, ops: seq<Op>, id: Uuid, origin: Option<string>,
                         claims: Option<GoogleClaims>, now: Time, spentAt: Time, draw: GoogleRules.GoogleDraw,
                         retry: Fresh) returns (ws': seq<World>, ops': seq<Op>)
    requires IsRun(cfg, retain, ws, ops)
    requires NewFamily(ws[|ops|].st, draw.session) && NewFamily(ws[|ops|].st, retry)
    ensures var s := ws[|ops|].st;
            Continues(cfg, retain, ws, ws', ops',
                      GoogleRules.FinishLogin(cfg, s, id, origin, claims, now, spentAt, draw, retry).st, spentAt, now)
  {
    hide GoogleRules.Consume, GoogleRules.LoginOnce, GoogleRules.LoginAfterConflict;
    var s := ws[|ops|].st;
    ws', ops' := Extended(cfg, retain, ws, ops, OnGoogle(ConsumeGoogle(id, GoogleLoginPurpose, origin, None)), spentAt);
    var spent := GoogleRules.Consume(cfg, s, id, GoogleLoginPurpose, origin, None, spentAt);
    ConsumingLeavesSessions(cfg, s, id, GoogleLoginPurpose, origin, None, spentAt);
    if !spent.out.Rejected? && claims.Some? {
      ws', ops' := Extended(cfg, retain, ws', ops', OnGoogle(GoogleLogin(claims.value, draw)), now);
      Ceremonies.FailedLoginChangesNothing(cfg, spent.st, claims.value, now, draw, retry);
      if GoogleRules.LoginOnce(cfg, spent.st, claims.value, now, draw).out == Rejected(StoreConflict) {
        ws', ops' := Extended(cfg, retain, ws', ops', OnGoogle(GoogleLoginAfterConflict(claims.value, retry)), now);
      }
    }
  }

  lemma ConsumingLeavesSessions(cfg: Settings, s: State, id: Uuid, purpose: GooglePurpose, origin: Option<string>,
                                user: Option<Uuid>, now: Time)
    ensures GoogleRules.Consume(cfg, s, id, purpose, origin, user, now).st.sessions == s.sessions
  {
  }

  /** `finish_link`: consume on the second reading, link on the first; what follows a conflict reads only. */
  lemma FinishLinkIsRun(cfg: Settings, retain: bool, ws: seq<World>, ops: seq<Op>, p: Principal, challenge: Uuid,
                        origin: Option<string>, claims: Option<GoogleClaims>, now: Time, spentAt: Time, id: Uuid)
    returns (ws': seq<World>, ops': seq<Op>)
    requires IsRun(cfg, retain, ws, ops)
    ensures var s := ws[|ops|].st;
            Continues(cfg, retain, ws, ws', ops',
                      GoogleRules.FinishLink(cfg, s, p, challenge, origin, claims, now, spentAt, id).st, spentAt, now)
  {
    hide GoogleRules.Consume, GoogleRules.LinkOnce, GoogleRules.LinkedAfterConflict;
    var s := ws[|ops|].st;
    ws', ops' := ws, ops;
    if GoogleRules.RecentEnough(p, cfg.googleLinkMaxAgeSeconds, now) {
      ws', ops' := Extended(cfg, retain, ws, ops,
                            OnGoogle(ConsumeGoogle(challenge, GoogleLinkPurpose, origin, Some(p.userId))), spentAt);
      var spent := GoogleRules.Consume(cfg, s, challenge, GoogleLinkPurpose, origin, Some(p.userId), spentAt);
      if !spent.out.Rejected? && claims.Some? {
        Ceremonies.RefusedLinkChangesNothing(cfg, spent.st, p, claims.value, now, id);
        ws', ops' := Extended(cfg, retain, ws', ops', OnGoogle(GoogleLink(p, claims.value, id)), now);
      }
    }
  }

  lemma FinishRegistrationIsRun(cfg: Settings, retain: bool, ws: seq<World>, ops: seq<Op>, p: Principal, ceremony: Uuid,
                                name: string, origin: Option<string>, response: Option<PasskeyRules.Attestation>,
                                id: Uuid, now: Time) returns (ws': seq<World>, ops': seq<Op>)
    requires IsRun(cfg, retain, ws, ops)
    ensures var s := ws[|ops|].st;
            Continues(cfg, retain, ws, ws', ops',
                      PasskeyRules.FinishRegistration(cfg, s, p, ceremony, name, origin, response, id, now).st,
                      now, now)
  {
    hide PasskeyRules.Consume, PasskeyRules.Register;
    var r := PasskeyRules.FinishRegistration(cfg, ws[|ops|].st, p, ceremony, name, origin, response, id, now);
    ws', ops' := ws, ops;
    if PasskeyRules.NotRecent(cfg, p, now).None? && origin.Some? {
      var spent := PasskeyRules.Consume(ws[|ops|].st, ceremony, Registration, Some(p.userId), None, now);
      ws', ops' := Extended(cfg, retain, ws, ops,
                            OnPasskeys(ConsumePasskey(ceremony, Registration, Some(p.userId), None)), now);
      if r != Reply(spent.st, r.out) {
        ws', ops' := Extended(cfg, retain, ws', ops', OnPasskeys(RegisterPasskey(p, id, name, response.value)), now);
      }
    }
  }

  lemma FinishAuthenticationIsRun(cfg: Settings, retain: bool, ws: seq<World>, ops: seq<Op>, ceremony: Uuid,
                                  origin: Option<string>, a: PasskeyRules.Assertion, now: Time, draw: Fresh)
    returns (ws': seq<World>, ops': seq<Op>)
    requires IsRun(cfg, retain, ws, ops) && NewFamily(ws[|ops|].st, draw)
    ensures var s := ws[|ops|].st;
            Continues(cfg, retain, ws, ws', ops',
                      PasskeyRules.FinishAuthentication(cfg, s, ceremony, origin, a, now, draw).st, now, now)
  {
    hide PasskeyRules.Consume, PasskeyRules.LoginByPasskey;
    var r := PasskeyRules.FinishAuthentication(cfg, ws[|ops|].st, ceremony, origin, a, now, draw);
    ws', ops' := ws, ops;
    if origin.Some? {
      var spent := PasskeyRules.Consume(ws[|ops|].st, ceremony, Authentication, None, None, now);
      PasskeyConsumingLeavesSessions(ws[|ops|].st, ceremony, Authentication, None, None, now);
      ws', ops' := Extended(cfg, retain, ws, ops, OnPasskeys(ConsumePasskey(ceremony, Authentication, None, None)),
                            now);
      if r != Reply(spent.st, r.out) {
        ws', ops' := Extended(cfg, retain, ws', ops', OnPasskeys(LoginByPasskey(a, draw)), now);
      }
    }
  }

  lemma PasskeyConsumingLeavesSessions(s: State, id: Uuid, purpose: CeremonyPurpose, user: Option<Uuid>,
                                       family: Option<Uuid>, now: Time)
    ensures PasskeyRules.Consume(s, id, purpose, user, family, now).st.sessions == s.sessions
  {
  }

  lemma FinishReauthenticationIsRun(cfg: Settings, retain: bool, ws: seq<World>, ops: seq<Op>, p: Principal,
                                    ceremony: Uuid, origin: Option<string>, a: PasskeyRules.Assertion, now: Time)
    returns (ws': seq<World>, ops': seq<Op>)
    requires IsRun(cfg, retain, ws, ops)
    ensures var s := ws[|ops|].st;
            Continues(cfg, retain, ws, ws', ops',
                      PasskeyRules.FinishReauthentication(s, p, ceremony, origin, a, now).st, now, now)
  {
    hide PasskeyRules.Consume, PasskeyRules.ConfirmByPasskey;
    var r := PasskeyRules.FinishReauthentication(ws[|ops|].st, p, ceremony, origin, a, now);
    ws', ops' := ws, ops;
    if origin.Some? {
      var spent := PasskeyRules.Consume(ws[|ops|].st, ceremony, Reauthentication, Some(p.userId), Some(p.familyId),
                                        now);
      ws', ops' := Extended(cfg, retain, ws, ops,
        OnPasskeys(ConsumePasskey(ceremony, Reauthentication, Some(p.userId), Some(p.familyId))), now);
      if r != Reply(spent.st, r.out) {
        ws', ops' := Extended(cfg, retain, ws', ops', OnPasskeys(ConfirmByPasskey(p, a)), now);
      }
    }
  }
}
