/**
  Invite-limited registration (services/auth_service.py, services/invite_service.py, models/invite.py).

  `RegistrationDesk` runs one request at a time.  `State` is the database with any number of sign-ups and
  revocations in flight: each is a transaction that moves in steps, and a claimed invite's row stays locked
  until its transaction ends.
 */
module Invites {
  import opened Basics

  datatype Invite = Invite(maxUses: nat, useCount: nat, expiresAt: Option<real>, revokedAt: Option<real>)

  datatype InviteStatus = Revoked | Expired | Used | Usable

  datatype Account = Account(email: string, invite: Option<string>)

  /** Committed accounts, and invites by the hash of their code. */
  datatype Db = Db(accounts: seq<Account>, invites: map<string, Invite>)

  datatype Mode = Open | InviteOnly | Closed

  datatype Reply = Registered | RegistrationClosed | EmailTaken | InvalidInvite

  function StatusOf(i: Invite, now: real): InviteStatus {
    if i.revokedAt.Some? then Revoked
    else if i.expiresAt.Some? && i.expiresAt.value <= now then Expired
    else if i.useCount >= i.maxUses then Used
    else Usable
  }

  predicate Claimable(db: Db, code: string, now: real) {
    code in db.invites && StatusOf(db.invites[code], now) == Usable
  }

  predicate Taken(accounts: seq<Account>, email: string) {
    exists i :: 0 <= i < |accounts| && accounts[i].email == email
  }

  /** Committing a registration: the account and, if an invite was claimed, its new use count, or nothing at all. */
  function Enroll(db: Db, email: string, code: Option<string>, useCount: nat): Db {
    if Taken(db.accounts, email) then db
    else
      Db(db.accounts + [Account(email, code)],
         if code.Some? && code.value in db.invites
         then db.invites[code.value := db.invites[code.value].(useCount := useCount)] else db.invites)
  }

  /** `register_user` run alone; `code` is the hash of the invite code sent, None for a blank one. */
  function Register(db: Db, mode: Mode, email: string, code: Option<string>, now: real): (Db, Reply) {
    if mode == Closed then (db, RegistrationClosed)
    else if Taken(db.accounts, email) then (db, EmailTaken)
    else if mode == Open then (Enroll(db, email, None, 0), Registered)
    else if code.None? || !Claimable(db, code.value, now) then (db, InvalidInvite)
    else (Enroll(db, email, code, db.invites[code.value].useCount + 1), Registered)
  }

  class RegistrationDesk {
    var accounts: seq<Account>
    var invites: map<string, Invite>

    function Contents(): Db
      reads this
    {
      Db(accounts, invites)
    }

    constructor ()
      ensures Contents() == Db([], map[])
    {
      accounts, invites := [], map[];
    }

    /** A step of the concurrent machine as it stands; codes are random, so none is issued twice. */
    method CreateInvite(code: string, maxUses: nat, expiresAt: Option<real>)
      requires Enabled(State(Contents(), map[]), Issue(code, maxUses, expiresAt))
      modifies this`invites
      ensures State(Contents(), map[]) == Next(State(old(Contents()), map[]), Issue(code, maxUses, expiresAt))
    {
      invites := invites[code := Invite(maxUses, 0, expiresAt, None)];
    }

    /** `claim_invite`: counts a use in the session, which its caller commits. */
    method ClaimInvite(code: string, now: real) returns (ok: bool, claimed: Invite)
      ensures ok <==> code in invites && Redeemable(invites[code], now)
      ensures ok ==> claimed == invites[code].(useCount := invites[code].useCount + 1)
    {
      claimed := Invite(0, 0, None, None);
      ok := code in invites && StatusOf(invites[code], now) == Usable;
      if ok {
        claimed := invites[code].(useCount := invites[code].useCount + 1);
      }
    }

    method RegisterUser(mode: Mode, email: string, code: Option<string>, now: real) returns (reply: Reply)
      modifies this
      ensures (Contents(), reply) == Register(old(Contents()), mode, email, code, now)
    {
      if mode == Closed {
        return RegistrationClosed;
      }
      if exists i :: 0 <= i < |accounts| && accounts[i].email == email {
        return EmailTaken;
      }
      var claim: Option<string> := None;
      if mode == InviteOnly {
        if code.None? {
          return InvalidInvite;
        }
        var ok, claimed := ClaimInvite(code.value, now);
        if !ok {
          return InvalidInvite;
        }
        invites := invites[code.value := claimed];
        claim := code;
      }
      accounts := accounts + [Account(email, claim)];
      return Registered;
    }

    method RevokeInvite(code: string, now: real) returns (found: bool)
      modifies this`invites
      ensures found == (code in old(invites))
      ensures invites == if found && old(invites)[code].revokedAt.None?
                         then old(invites)[code := old(invites)[code].(revokedAt := Some(now))] else old(invites)
    {
      found := code in invites;
      if found && invites[code].revokedAt.None? {
        invites := invites[code := invites[code].(revokedAt := Some(now))];
      }
    }
  }

  // ---------- Sign-ups and revocations in flight ----------

  datatype Transaction =
    | Checked(email: string, code: Option<string>)
    | Claimed(email: string, invite: string, useCount: nat)
    | Revoking(invite: string)

  datatype State = State(db: Db, txs: map<nat, Transaction>)

  datatype Step =
    | Issue(code: string, maxUses: nat, expiresAt: Option<real>)
    | Begin(t: nat, mode: Mode, email: string, sent: Option<string>)
    | Claim(t: nat, now: real)
    | Commit(t: nat)
    | Abort(t: nat)
    | BeginRevoke(t: nat, code: string)
    | CommitRevoke(t: nat, now: real)

  /** Some transaction holds the row lock on an invite. */
  ghost predicate Locked(st: State, code: string) {
    exists t :: t in st.txs && st.txs[t].Claimed? && st.txs[t].invite == code
  }

  /** When a step can go ahead: SELECT ... FOR UPDATE and UPDATE wait for the row lock. */
  ghost predicate Enabled(st: State, s: Step) {
    match s
    case Issue(code, _, _) => code !in st.db.invites
    case Begin(t, _, _, _) => t !in st.txs
    case Claim(t, _) => t in st.txs && st.txs[t].Checked? && st.txs[t].code.Some? && !Locked(st, st.txs[t].code.value)
    case Commit(t) => t in st.txs && ((st.txs[t].Checked? && st.txs[t].code.None?) || st.txs[t].Claimed?)
    case Abort(t) => t in st.txs
    case BeginRevoke(t, _) => t !in st.txs
    case CommitRevoke(t, _) => t in st.txs && st.txs[t].Revoking? && !Locked(st, st.txs[t].invite)
  }

  ghost function Next(st: State, s: Step): State
    requires Enabled(st, s)
  {
    match s
    case Issue(code, maxUses, expiresAt) =>
      st.(db := st.db.(invites := st.db.invites[code := Invite(maxUses, 0, expiresAt, None)]))
    case Begin(t, mode, email, sent) =>
      if mode == Closed || Taken(st.db.accounts, email) || (mode == InviteOnly && sent.None?) then st
      else st.(txs := st.txs[t := Checked(email, if mode == InviteOnly then sent else None)])
    case Claim(t, now) =>
      var tx := st.txs[t];
      if Claimable(st.db, tx.code.value, now)
      then st.(txs := st.txs[t := Claimed(tx.email, tx.code.value, st.db.invites[tx.code.value].useCount + 1)])
      else st.(txs := st.txs - {t})
    case Commit(t) =>
      var tx := st.txs[t];
      State(if tx.Claimed? then Enroll(st.db, tx.email, Some(tx.invite), tx.useCount) else Enroll(st.db, tx.email, None, 0),
            st.txs - {t})
    case Abort(t) => st.(txs := st.txs - {t})
    case BeginRevoke(t, code) =>
      if code in st.db.invites && st.db.invites[code].revokedAt.None? then st.(txs := st.txs[t := Revoking(code)]) else st
    case CommitRevoke(t, now) =>
      var code := st.txs[t].invite;
      State(if code in st.db.invites
            then st.db.(invites := st.db.invites[code := st.db.invites[code].(revokedAt := Some(now))]) else st.db,
            st.txs - {t})
  }

  ghost predicate Enables(st: State, steps: seq<Step>)
    decreases |steps|
  {
    steps == [] || (Enabled(st, steps[0]) && Enables(Next(st, steps[0]), steps[1..]))
  }

  ghost function After(st: State, steps: seq<Step>): State
    requires Enables(st, steps)
    decreases |steps|
  {
    if steps == [] then st else After(Next(st, steps[0]), steps[1..])
  }

  /** Committed accounts that claimed an invite. */
  ghost function Uses(accounts: seq<Account>, code: string): nat {
    if accounts == [] then 0
    else Uses(accounts[..|accounts| - 1], code) + (if accounts[|accounts| - 1].invite == Some(code) then 1 else 0)
  }

  lemma UsesAppend(accounts: seq<Account>, a: Account, code: string)
    ensures Uses(accounts + [a], code) == Uses(accounts, code) + (if a.invite == Some(code) then 1 else 0)
  {
    assert (accounts + [a])[..|accounts|] == accounts;
  }

  ghost predicate EmailsUnique(accounts: seq<Account>) {
    forall i, j :: 0 <= i < j < |accounts| ==> accounts[i].email != accounts[j].email
  }

  /** Use counts are exactly the committed accounts, and within their limits; accounts claim issued invites only. */
  ghost predicate Sound(db: Db) {
    && EmailsUnique(db.accounts)
    && (forall c :: c in db.invites ==> db.invites[c].useCount == Uses(db.accounts, c) && db.invites[c].useCount <= db.invites[c].maxUses)
    && (forall c :: c !in db.invites ==> Uses(db.accounts, c) == 0)
  }

  /** A claim in flight holds its invite alone, unrevoked, with one use in hand. */
  ghost predicate LocksHeld(st: State) {
    && (forall t :: t in st.txs && st.txs[t].Claimed? ==>
          && st.txs[t].invite in st.db.invites
          && st.txs[t].useCount == st.db.invites[st.txs[t].invite].useCount + 1
          && st.txs[t].useCount <= st.db.invites[st.txs[t].invite].maxUses
          && st.db.invites[st.txs[t].invite].revokedAt.None?)
    && (forall t, u :: t in st.txs && u in st.txs && st.txs[t].Claimed? && st.txs[u].Claimed? ==>
          (st.txs[t].invite == st.txs[u].invite ==> t == u))
  }

  ghost predicate Invariant(st: State) {
    Sound(st.db) && LocksHeld(st)
  }

  lemma EnrollIsSound(db: Db, email: string, code: Option<string>, useCount: nat)
    requires Sound(db)
    requires code.Some? ==>
               && code.value in db.invites && useCount == db.invites[code.value].useCount + 1
               && useCount <= db.invites[code.value].maxUses
    ensures Sound(Enroll(db, email, code, useCount))
  {
    var next := Enroll(db, email, code, useCount);
    if !Taken(db.accounts, email) {
      EmailsStayUnique(db.accounts, Account(email, code));
      forall c: string ensures Uses(next.accounts, c) == Uses(db.accounts, c) + if code == Some(c) then 1 else 0 {
        UsesAppend(db.accounts, Account(email, code), c);
      }
    }
  }

  lemma EmailsStayUnique(accounts: seq<Account>, a: Account)
    requires EmailsUnique(accounts) && !Taken(accounts, a.email)
    ensures EmailsUnique(accounts + [a])
  {
  }

  lemma CommitKeeps(st: State, s: Step)
    requires Invariant(st) && Enabled(st, s) && s.Commit?
    ensures Invariant(Next(st, s))
  {
    var tx := st.txs[s.t];
    if tx.Claimed? {
      EnrollIsSound(st.db, tx.email, Some(tx.invite), tx.useCount);
    } else {
      EnrollIsSound(st.db, tx.email, None, 0);
    }
  }

  lemma IssueKeeps(st: State, s: Step)
    requires Invariant(st) && Enabled(st, s) && s.Issue?
    ensures Invariant(Next(st, s))
  {
  }

  lemma ClaimKeeps(st: State, s: Step)
    requires Invariant(st) && Enabled(st, s) && s.Claim?
    ensures Invariant(Next(st, s))
  {
    var next := Next(st, s);
    assert forall t :: t in next.txs && t != s.t ==> t in st.txs && next.txs[t] == st.txs[t];
  }

  lemma RevokeKeeps(st: State, s: Step)
    requires Invariant(st) && Enabled(st, s) && s.CommitRevoke?
    ensures Invariant(Next(st, s))
  {
    var next := Next(st, s);
    assert forall t :: t in next.txs ==> t in st.txs && next.txs[t] == st.txs[t];
  }

  /** Steps that touch neither the database nor a claim. */
  lemma QuietKeeps(st: State, s: Step)
    requires Invariant(st) && Enabled(st, s) && (s.Begin? || s.Abort? || s.BeginRevoke?)
    ensures Invariant(Next(st, s))
  {
    var next := Next(st, s);
    assert forall t :: t in next.txs && next.txs[t].Claimed? ==> t in st.txs && next.txs[t] == st.txs[t];
  }

  lemma StepKeeps(st: State, s: Step)
    requires Invariant(st) && Enabled(st, s)
    ensures Invariant(Next(st, s))
  {
    match s
    case Commit(_) => CommitKeeps(st, s);
    case Issue(_, _, _) => IssueKeeps(st, s);
    case Claim(_, _) => ClaimKeeps(st, s);
    case CommitRevoke(_, _) => RevokeKeeps(st, s);
    case Begin(_, _, _, _) => QuietKeeps(st, s);
    case Abort(_) => QuietKeeps(st, s);
    case BeginRevoke(_, _) => QuietKeeps(st, s);
  }

  lemma {:induction false} RunKeeps(st: State, steps: seq<Step>)
    requires Invariant(st) && Enables(st, steps)
    ensures Invariant(After(st, steps))
    decreases |steps|
  {
    if steps != [] {
      StepKeeps(st, steps[0]);
      RunKeeps(Next(st, steps[0]), steps[1..]);
    }
  }

  /**
    For every interleaving of sign-ups and revocations, from an empty database: each invite's use count is the
    number of committed accounts that claimed it and never exceeds its limit, and no two accounts share an email.
   */
  lemma InvitesUnderConcurrency(steps: seq<Step>)
    requires Enables(State(Db([], map[]), map[]), steps)
    ensures Sound(After(State(Db([], map[]), map[]), steps).db)
  {
    RunKeeps(State(Db([], map[]), map[]), steps);
  }

  lemma RevokedStepIsFinal(st: State, s: Step, code: string)
    requires Invariant(st) && Enabled(st, s) && code in st.db.invites && st.db.invites[code].revokedAt.Some?
    ensures var next := Next(st, s);
            && code in next.db.invites && next.db.invites[code].revokedAt.Some?
            && next.db.invites[code].useCount == st.db.invites[code].useCount
            && Uses(next.db.accounts, code) == Uses(st.db.accounts, code)
  {
    StepKeeps(st, s);
  }

  /** Once a revocation has committed, no sign-up, not even one already under way, gets an account with the invite. */
  lemma {:induction false} RevocationIsFinal(st: State, steps: seq<Step>, code: string)
    requires Invariant(st) && Enables(st, steps) && code in st.db.invites && st.db.invites[code].revokedAt.Some?
    ensures Uses(After(st, steps).db.accounts, code) == Uses(st.db.accounts, code)
    ensures code in After(st, steps).db.invites && After(st, steps).db.invites[code].revokedAt.Some?
    decreases |steps|
  {
    if steps != [] {
      RevokedStepIsFinal(st, steps[0], code);
      StepKeeps(st, steps[0]);
      RevocationIsFinal(Next(st, steps[0]), steps[1..], code);
    }
  }

  // ---------- Which invites let someone in ----------

  /** Issued and not revoked, not past its expiry, and with a use left. */
  predicate Redeemable(i: Invite, now: real) {
    i.revokedAt == None && (i.expiresAt == None || now < i.expiresAt.value) && i.useCount < i.maxUses
  }

  /**
    Who gets an account: with registration open, anyone whose email is free; by invitation, only with an invite that
    can be redeemed at that moment; when it is closed, nobody.  The account names the invite, which loses one use; a refusal
    changes nothing and names the first reason.
   */
  lemma RegisterAnswers(db: Db, mode: Mode, email: string, code: Option<string>, now: real)
    ensures var (after, reply) := Register(db, mode, email, code, now);
            var free := forall i :: 0 <= i < |db.accounts| ==> db.accounts[i].email != email;
            var invited := code.Some? && code.value in db.invites && Redeemable(db.invites[code.value], now);
            && (reply == Registered <==> mode != Closed && free && (mode == InviteOnly ==> invited))
            && (reply == RegistrationClosed <==> mode == Closed)
            && (reply == EmailTaken <==> mode != Closed && !free)
            && (reply != Registered ==> after == db)
            && (reply == Registered ==>
                  && after.accounts == db.accounts + [Account(email, if mode == InviteOnly then code else None)]
                  && after.invites.Keys == db.invites.Keys
                  && forall c :: c in db.invites ==>
                       after.invites[c] ==
                       db.invites[c].(useCount := db.invites[c].useCount + if mode == InviteOnly && code == Some(c) then 1 else 0))
  {
  }

  /** Over interleavings, a claim takes hold exactly of an invite that can be redeemed when its row is locked. */
  lemma ClaimTakesHoldIff(st: State, t: nat, now: real)
    requires Enabled(st, Claim(t, now))
    ensures var code, next := st.txs[t].code.value, Next(st, Claim(t, now));
            && (t in next.txs <==> code in st.db.invites && Redeemable(st.db.invites[code], now))
            && (t in next.txs ==> next.txs[t] == Claimed(st.txs[t].email, code, st.db.invites[code].useCount + 1))
            && next.db == st.db
  {
  }

  /** No claim reads its clock before `since`. */
  predicate ClaimsFrom(steps: seq<Step>, since: real) {
    forall i :: 0 <= i < |steps| && steps[i].Claim? ==> since <= steps[i].now
  }

  predicate ExpiredBy(st: State, code: string, since: real) {
    code in st.db.invites && st.db.invites[code].expiresAt.Some? && st.db.invites[code].expiresAt.value <= since
  }

  lemma ExpiredStepIsFinal(st: State, s: Step, code: string, since: real)
    requires Invariant(st) && Enabled(st, s) && ExpiredBy(st, code, since) && !Locked(st, code)
    requires s.Claim? ==> since <= s.now
    ensures var next := Next(st, s);
            && ExpiredBy(next, code, since) && !Locked(next, code)
            && Uses(next.db.accounts, code) == Uses(st.db.accounts, code)
  {
    StepKeeps(st, s);
    if s.Claim? {
      ClaimTakesHoldIff(st, s.t, s.now);
    }
    var next := Next(st, s);
    assert forall t :: t in next.txs && next.txs[t].Claimed? && next.txs[t].invite == code ==>
                         t in st.txs && next.txs[t] == st.txs[t];
  }

  /** Once an invite has expired and no claim of it is under way, no sign-up ever gets an account with it. */
  lemma {:induction false} ExpiryIsFinal(st: State, steps: seq<Step>, code: string, since: real)
    requires Invariant(st) && Enables(st, steps) && ClaimsFrom(steps, since)
    requires ExpiredBy(st, code, since) && !Locked(st, code)
    ensures Uses(After(st, steps).db.accounts, code) == Uses(st.db.accounts, code)
    decreases |steps|
  {
    if steps != [] {
      ExpiredStepIsFinal(st, steps[0], code, since);
      StepKeeps(st, steps[0]);
      assert forall i :: 0 <= i < |steps| - 1 ==> steps[1..][i] == steps[i + 1];
      ExpiryIsFinal(Next(st, steps[0]), steps[1..], code, since);
    }
  }

  /** A sign-up that fails after its claim burns nothing: the next in line can claim the very same use. */
  lemma AbortedClaimIsReusable(st: State, t: nat, u: nat, now: real)
    requires Invariant(st) && t in st.txs && st.txs[t].Claimed?
    requires u in st.txs && st.txs[u].Checked? && st.txs[u].code == Some(st.txs[t].invite)
    requires var i := st.db.invites[st.txs[t].invite]; i.expiresAt.Some? ==> now < i.expiresAt.value
    ensures var released := Next(st, Abort(t));
            && released.db == st.db
            && Enabled(released, Claim(u, now))
            && Next(released, Claim(u, now)).txs[u] == Claimed(st.txs[u].email, st.txs[t].invite, st.txs[t].useCount)
  {
    var released := Next(st, Abort(t));
    assert released.txs[u] == st.txs[u];
    assert !Locked(released, st.txs[t].invite);
  }

  lemma RunOfTwo(st: State, s: Step, mid: State, t: Step)
    requires Enabled(st, s) && mid == Next(st, s) && Enabled(mid, t)
    ensures Enables(st, [s, t]) && After(st, [s, t]) == Next(mid, t)
  {
    assert [s, t][1..] == [t] && [t][1..] == [];
    assert Enables(mid, [t]) && After(mid, [t]) == Next(mid, t);
  }

  /** A registration run alone is its transaction's steps with nothing in between, whatever its reply. */
  lemma RegisterIsRun(db: Db, mode: Mode, email: string, code: Option<string>, now: real) returns (steps: seq<Step>)
    ensures Enables(State(db, map[]), steps)
    ensures After(State(db, map[]), steps) == State(Register(db, mode, email, code, now).0, map[])
  {
    var start := State(db, map[]);
    var begin := Begin(0, mode, email, code);
    var begun := Next(start, begin);
    if begun == start {
      steps := [begin];
      assert steps[1..] == [];
    } else if mode == Open {
      assert begun.txs == map[0 := Checked(email, None)];
      assert Next(begun, Commit(0)).txs == map[];
      steps := [begin, Commit(0)];
      RunOfTwo(start, begin, begun, Commit(0));
    } else {
      assert begun.txs == map[0 := Checked(email, code)];
      var claimed := Next(begun, Claim(0, now));
      if Claimable(db, code.value, now) {
        assert claimed.txs == map[0 := Claimed(email, code.value, db.invites[code.value].useCount + 1)];
        assert Next(claimed, Commit(0)).txs == map[];
        RunOfTwo(begun, Claim(0, now), claimed, Commit(0));
        steps := [begin] + [Claim(0, now), Commit(0)];
        assert steps[1..] == [Claim(0, now), Commit(0)];
      } else {
        assert claimed.txs == map[];
        steps := [begin, Claim(0, now)];
        RunOfTwo(start, begin, begun, Claim(0, now));
      }
    }
  }
}
