/** Signing in by email, with a lockout per account. */
module Login {
  import opened Wrappers
  import opened Tables

  /** Times are in microseconds. */
  const SECOND := 1_000_000

  datatype Account = Account(
    id: Id, email: string, hash: string, salt: string, isActive: bool,
    failedAttempts: int, lockedUntil: Option<int>, lastLogin: Option<int>)

  datatype Lockout = Lockout(threshold: int, durationSeconds: int) {
    function Duration(): int { durationSeconds * SECOND }
  }

  /** Whether a password fits a stored hash and salt. */
  type Verifier = (string, string, string) -> bool

  /** One sign-in attempt. */
  datatype Attempt = Attempt(email: string, password: string, now: int)

  predicate Candidate(a: Account, attempt: Attempt) {
    a.email == attempt.email && a.isActive
  }

  predicate Locked(a: Account, now: int) {
    a.lockedUntil.Some? && a.lockedUntil.value > now
  }

  /** The account accepts the attempt, if the attempt gets to it. */
  predicate Matches(a: Account, attempt: Attempt, verify: Verifier) {
    Candidate(a, attempt) && !Locked(a, attempt.now) && verify(attempt.password, a.hash, a.salt)
  }

  function Succeeded(a: Account, now: int): Account {
    a.(failedAttempts := 0, lockedUntil := None, lastLogin := Some(now))
  }

  function Failed(a: Account, now: int, lockout: Lockout): Account {
    var n := a.failedAttempts + 1;
    a.(failedAttempts := n,
       lockedUntil := if n >= lockout.threshold then Some(now + lockout.Duration()) else a.lockedUntil)
  }

  /** The first account that accepts the attempt; the number of accounts if none does. */
  function FirstMatch(accounts: seq<Account>, attempt: Attempt, verify: Verifier): (m: nat)
    ensures m <= |accounts|
    ensures forall i :: 0 <= i < m ==> !Matches(accounts[i], attempt, verify)
    ensures m < |accounts| ==> Matches(accounts[m], attempt, verify)
  {
    if accounts == [] then 0
    else if Matches(accounts[0], attempt, verify) then 0
    else 1 + FirstMatch(accounts[1..], attempt, verify)
  }

  /** Whether the attempt's password is checked against account `i`. */
  predicate Checked(accounts: seq<Account>, i: nat, attempt: Attempt, verify: Verifier)
    requires i < |accounts|
  {
    Candidate(accounts[i], attempt) && !Locked(accounts[i], attempt.now) && i <= FirstMatch(accounts, attempt, verify)
  }

  function AccountAfter(accounts: seq<Account>, i: nat, attempt: Attempt, verify: Verifier, lockout: Lockout): Account
    requires i < |accounts|
  {
    if !Checked(accounts, i, attempt, verify) then accounts[i]
    else if i == FirstMatch(accounts, attempt, verify) then Succeeded(accounts[i], attempt.now)
    else Failed(accounts[i], attempt.now, lockout)
  }

  /** The accounts after an attempt. */
  function AccountsAfter(
    accounts: seq<Account>, attempt: Attempt, verify: Verifier, lockout: Lockout)
    : (r: seq<Account>)
    ensures |r| == |accounts|
    ensures forall i :: 0 <= i < |accounts| ==> r[i] == AccountAfter(accounts, i, attempt, verify, lockout)
  {
    seq(|accounts|, i requires 0 <= i < |accounts| => AccountAfter(accounts, i, attempt, verify, lockout))
  }

  /** A candidate that turns the attempt away because of a lock, old or new. */
  predicate Bars(a: Account, attempt: Attempt, lockout: Lockout) {
    Candidate(a, attempt) && (Locked(a, attempt.now) || a.failedAttempts + 1 >= lockout.threshold)
  }

  /** Division towards zero. */
  function Truncated(x: int, d: int): int
    requires d > 0
  {
    if x >= 0 then x / d else -((-x) / d)
  }

  ghost predicate IsLastBar(accounts: seq<Account>, i: nat, attempt: Attempt, lockout: Lockout) {
    && i < |accounts| && Bars(accounts[i], attempt, lockout)
    && forall j :: i < j < |accounts| ==> !Bars(accounts[j], attempt, lockout)
  }

  /** The last candidate that turns the attempt away. */
  function LastBar(accounts: seq<Account>, attempt: Attempt, lockout: Lockout): (r: Option<nat>)
    ensures r.Some? ==> IsLastBar(accounts, r.value, attempt, lockout)
    ensures r.None? ==> forall i :: 0 <= i < |accounts| ==> !Bars(accounts[i], attempt, lockout)
  {
    if accounts == [] then None
    else if Bars(accounts[|accounts| - 1], attempt, lockout) then Some(|accounts| - 1)
    else LastBar(accounts[..|accounts| - 1], attempt, lockout)
  }

  datatype Answer = SignedIn(index: nat) | AccountLocked(retryAfter: int) | NotFound

  /** Whole seconds until a lock ends. */
  function RetryAfter(lockedUntil: Option<int>, now: int): int {
    Truncated(lockedUntil.GetOr(now) - now, SECOND)
  }

  /** The first account that accepts the attempt; failing that, the wait for the last account that
      is or has become locked; failing that, nothing. */
  function AnswerTo(accounts: seq<Account>, attempt: Attempt, verify: Verifier, lockout: Lockout): Answer {
    var m := FirstMatch(accounts, attempt, verify);
    if m < |accounts| then SignedIn(m)
    else
      match LastBar(accounts, attempt, lockout)
      case None => NotFound
      case Some(i) =>
        AccountLocked(RetryAfter(AccountAfter(accounts, i, attempt, verify, lockout).lockedUntil, attempt.now))
  }

  class User {
    const id: Id
    const email: string
    const hash: string
    const salt: string
    const isActive: bool
    var failedAttempts: int
    var lockedUntil: Option<int>
    var lastLogin: Option<int>

    constructor (account: Account)
      ensures State() == account
    {
      id, email, hash, salt, isActive := account.id, account.email, account.hash, account.salt, account.isActive;
      failedAttempts, lockedUntil, lastLogin := account.failedAttempts, account.lockedUntil, account.lastLogin;
    }

    function State(): Account
      reads this
    {
      Account(id, email, hash, salt, isActive, failedAttempts, lockedUntil, lastLogin)
    }
  }

  function States(users: seq<User>): (r: seq<Account>)
    reads users
    ensures |r| == |users| && forall i :: 0 <= i < |users| ==> r[i] == users[i].State()
  {
    seq(|users|, i requires 0 <= i < |users| reads users => users[i].State())
  }

  /** What a pass that nobody has accepted yet makes of one account. */
  function Missed(a: Account, attempt: Attempt, lockout: Lockout): Account {
    if Candidate(a, attempt) && !Locked(a, attempt.now) then Failed(a, attempt.now, lockout) else a
  }

  datatype Verdict = Fits | LockedOut | GoesOn

  /** What the pass does with one user. */
  method TryUser(user: User, attempt: Attempt, verify: Verifier, lockout: Lockout) returns (v: Verdict)
    modifies user
    ensures v == Fits <==> Matches(old(user.State()), attempt, verify)
    ensures v != Fits ==> (v == LockedOut <==> Bars(old(user.State()), attempt, lockout))
    ensures user.State() ==
      if v == Fits then Succeeded(old(user.State()), attempt.now) else Missed(old(user.State()), attempt, lockout)
  {
    var now := attempt.now;
    if user.email != attempt.email || !user.isActive {
      return GoesOn;
    }
    if user.lockedUntil.Some? && user.lockedUntil.value > now {
      return LockedOut;
    }
    if verify(attempt.password, user.hash, user.salt) {
      user.failedAttempts, user.lockedUntil, user.lastLogin := 0, None, Some(now);
      return Fits;
    }
    user.failedAttempts := user.failedAttempts + 1;
    if user.failedAttempts >= lockout.threshold {
      user.lockedUntil := Some(now + lockout.Duration());
      return LockedOut;
    }
    v := GoesOn;
  }

  /** The same, as one step of the pass over all users. */
  method TryAt(users: seq<User>, i: nat, attempt: Attempt, verify: Verifier, lockout: Lockout) returns (v: Verdict)
    requires i < |users| && forall j, k :: 0 <= j < k < |users| ==> users[j] != users[k]
    modifies users[i]
    ensures v == Fits <==> Matches(old(States(users))[i], attempt, verify)
    ensures v != Fits ==> (v == LockedOut <==> Bars(old(States(users))[i], attempt, lockout))
    ensures States(users) == old(States(users))[i :=
      if v == Fits then Succeeded(old(States(users))[i], attempt.now)
        else Missed(old(States(users))[i], attempt, lockout)]
  {
    v := TryUser(users[i], attempt, verify, lockout);
    forall j | 0 <= j < |users| && j != i ensures users[j].State() == old(users[j].State()) {
      assert users[j] != users[i];
    }
  }

  /** The accounts midway through a pass, when none of the first `i` has accepted the attempt. */
  function PassedOver(accounts: seq<Account>, i: int, attempt: Attempt, lockout: Lockout): (r: seq<Account>)
    ensures |r| == |accounts|
    ensures forall j :: 0 <= j < |accounts| ==>
      r[j] == if j < i then Missed(accounts[j], attempt, lockout) else accounts[j]
  {
    seq(|accounts|, j requires 0 <= j < |accounts| =>
      if j < i then Missed(accounts[j], attempt, lockout) else accounts[j])
  }

  lemma PassStep(accounts: seq<Account>, i: nat, attempt: Attempt, lockout: Lockout)
    requires i < |accounts|
    ensures PassedOver(accounts, i, attempt, lockout)[i] == accounts[i]
    ensures PassedOver(accounts, i + 1, attempt, lockout) ==
            PassedOver(accounts, i, attempt, lockout)[i := Missed(accounts[i], attempt, lockout)]
    ensures LastBar(accounts[..i + 1], attempt, lockout) ==
            if Bars(accounts[i], attempt, lockout) then Some(i) else LastBar(accounts[..i], attempt, lockout)
  {
    assert accounts[..i + 1][..i] == accounts[..i];
  }

  lemma PassEnds(accounts: seq<Account>, m: nat, attempt: Attempt, verify: Verifier, lockout: Lockout)
    requires m <= |accounts| && forall j :: 0 <= j < m ==> !Matches(accounts[j], attempt, verify)
    requires m < |accounts| ==> Matches(accounts[m], attempt, verify)
    ensures FirstMatch(accounts, attempt, verify) == m
    ensures AccountsAfter(accounts, attempt, verify, lockout) ==
      if m < |accounts| then PassedOver(accounts, m, attempt, lockout)[m := Succeeded(accounts[m], attempt.now)]
      else PassedOver(accounts, m, attempt, lockout)
    ensures AnswerTo(accounts, attempt, verify, lockout) ==
      if m < |accounts| then SignedIn(m)
      else if LastBar(accounts, attempt, lockout).None? then NotFound
      else
        var i := LastBar(accounts, attempt, lockout).value;
        AccountLocked(RetryAfter(PassedOver(accounts, m, attempt, lockout)[i].lockedUntil, attempt.now))
  {
    FirstMatchIs(accounts, m, attempt, verify);
  }

  /** Goes through the active users with the given email, in order, and signs in as the first one
      that is not locked and whose password fits. */
  method AuthenticateUserByEmail(users: seq<User>, attempt: Attempt, verify: Verifier, lockout: Lockout)
    returns (answer: Answer)
    requires forall i, j :: 0 <= i < j < |users| ==> users[i] != users[j]
    modifies users
    ensures answer == AnswerTo(old(States(users)), attempt, verify, lockout)
    ensures States(users) == AccountsAfter(old(States(users)), attempt, verify, lockout)
  {
    ghost var before := States(users);
    var locked: Option<nat> := None;
    for i := 0 to |users|
      invariant forall j :: 0 <= j < i ==> !Matches(before[j], attempt, verify)
      invariant States(users) == PassedOver(before, i, attempt, lockout)
      invariant locked == LastBar(before[..i], attempt, lockout)
    {
      PassStep(before, i, attempt, lockout);
      var verdict := TryAt(users, i, attempt, verify, lockout);
      if verdict == Fits {
        PassEnds(before, i, attempt, verify, lockout);
        return SignedIn(i);
      }
      if verdict == LockedOut {
        locked := Some(i);
      }
    }
    assert before[..|users|] == before;
    PassEnds(before, |users|, attempt, verify, lockout);
    if locked.Some? {
      assert users[locked.value].State() == States(users)[locked.value];
      return AccountLocked(RetryAfter(users[locked.value].lockedUntil, attempt.now));
    }
    answer := NotFound;
  }

  lemma FirstMatchIs(accounts: seq<Account>, m: nat, attempt: Attempt, verify: Verifier)
    requires m <= |accounts| && forall i :: 0 <= i < m ==> !Matches(accounts[i], attempt, verify)
    requires m < |accounts| ==> Matches(accounts[m], attempt, verify)
    ensures FirstMatch(accounts, attempt, verify) == m
  {
  }

  lemma SignsInIff(accounts: seq<Account>, i: nat, attempt: Attempt, verify: Verifier, lockout: Lockout)
    requires i < |accounts|
    ensures AnswerTo(accounts, attempt, verify, lockout) == SignedIn(i) <==>
      Matches(accounts[i], attempt, verify) && forall j :: 0 <= j < i ==> !Matches(accounts[j], attempt, verify)
    ensures i <= FirstMatch(accounts, attempt, verify) <==>
      forall j :: 0 <= j < i ==> !Matches(accounts[j], attempt, verify)
  {
    var m := FirstMatch(accounts, attempt, verify);
    assert m < i ==> Matches(accounts[m], attempt, verify);
  }

  lemma LockedOutIff(accounts: seq<Account>, attempt: Attempt, verify: Verifier, lockout: Lockout)
    ensures AnswerTo(accounts, attempt, verify, lockout).AccountLocked? <==>
      (forall i :: 0 <= i < |accounts| ==> !Matches(accounts[i], attempt, verify)) &&
      exists i :: 0 <= i < |accounts| && Bars(accounts[i], attempt, lockout)
  {
    var m := FirstMatch(accounts, attempt, verify);
    assert m < |accounts| ==> Matches(accounts[m], attempt, verify);
  }

  /** What a pass makes of one account, in its own fields; `reached` says that nobody before it signed in. */
  ghost predicate Outcome(a: Account, after: Account, attempt: Attempt, reached: bool, fits: bool, lockout: Lockout) {
    var tried := reached && a.email == attempt.email && a.isActive &&
      (a.lockedUntil.None? || a.lockedUntil.value <= attempt.now);
    && after.id == a.id && after.email == a.email && after.hash == a.hash && after.salt == a.salt
    && after.isActive == a.isActive
    && (tried && fits ==>
          after.failedAttempts == 0 && after.lockedUntil == None && after.lastLogin == Some(attempt.now))
    && (tried && !fits ==>
          && after.failedAttempts == a.failedAttempts + 1 && after.lastLogin == a.lastLogin
          && after.lockedUntil == if a.failedAttempts + 1 < lockout.threshold then a.lockedUntil
                                  else Some(attempt.now + lockout.durationSeconds * 1_000_000))
    && (!tried ==> after == a)
  }

  /** An active, unlocked account of that email and password. */
  predicate Accepts(a: Account, attempt: Attempt, verify: Verifier) {
    && a.email == attempt.email && a.isActive && (a.lockedUntil.None? || a.lockedUntil.value <= attempt.now)
    && verify(attempt.password, a.hash, a.salt)
  }

  ghost predicate Reached(accounts: seq<Account>, i: nat, attempt: Attempt, verify: Verifier)
    requires i <= |accounts|
  {
    forall j :: 0 <= j < i ==> !Accepts(accounts[j], attempt, verify)
  }

  /** The outcome of one pass: who signs in, what becomes of every account, and when the caller is told
      that an account is locked. */
  lemma PassOutcome(accounts: seq<Account>, attempt: Attempt, verify: Verifier, lockout: Lockout)
    ensures var answer := AnswerTo(accounts, attempt, verify, lockout);
      var after := AccountsAfter(accounts, attempt, verify, lockout);
      && (forall i :: 0 <= i < |accounts| ==>
            && (answer == SignedIn(i) <==>
                  Accepts(accounts[i], attempt, verify) && Reached(accounts, i, attempt, verify))
            && Outcome(accounts[i], after[i], attempt, Reached(accounts, i, attempt, verify),
                       verify(attempt.password, accounts[i].hash, accounts[i].salt), lockout))
      && (answer.AccountLocked? <==>
            Reached(accounts, |accounts|, attempt, verify) &&
            exists i :: 0 <= i < |accounts| && TurnsAway(accounts[i], attempt, lockout))
  {
    forall i | 0 <= i < |accounts|
      ensures Accepts(accounts[i], attempt, verify) <==> Matches(accounts[i], attempt, verify)
      ensures TurnsAway(accounts[i], attempt, lockout) <==> Bars(accounts[i], attempt, lockout)
    {
    }
    forall i | 0 <= i < |accounts|
      ensures AnswerTo(accounts, attempt, verify, lockout) == SignedIn(i) <==>
        Accepts(accounts[i], attempt, verify) && Reached(accounts, i, attempt, verify)
      ensures Outcome(accounts[i], AccountAfter(accounts, i, attempt, verify, lockout), attempt,
                      Reached(accounts, i, attempt, verify),
                      verify(attempt.password, accounts[i].hash, accounts[i].salt), lockout)
    {
      SignsInIff(accounts, i, attempt, verify, lockout);
    }
    LockedOutIff(accounts, attempt, verify, lockout);
  }

  /** An active account of that email that is locked, or gets locked by one more failure. */
  predicate TurnsAway(a: Account, attempt: Attempt, lockout: Lockout) {
    a.email == attempt.email && a.isActive &&
    ((a.lockedUntil.Some? && a.lockedUntil.value > attempt.now) || a.failedAttempts + 1 >= lockout.threshold)
  }

  /** The wait a caller is told: the whole seconds left, towards zero, of the lock of the last account
      that turned the attempt away. */
  lemma WaitOutcome(accounts: seq<Account>, attempt: Attempt, verify: Verifier, lockout: Lockout)
    requires AnswerTo(accounts, attempt, verify, lockout).AccountLocked?
    ensures var wait := AnswerTo(accounts, attempt, verify, lockout).retryAfter;
      var after := AccountsAfter(accounts, attempt, verify, lockout);
      exists i :: 0 <= i < |accounts| && TurnsAway(accounts[i], attempt, lockout) && after[i].lockedUntil.Some? &&
        (forall j :: i < j < |accounts| ==> !TurnsAway(accounts[j], attempt, lockout)) &&
        var left := after[i].lockedUntil.value - attempt.now;
        -1_000_000 < left - wait * 1_000_000 < 1_000_000 && (left >= 0 ==> wait * 1_000_000 <= left) &&
        (left <= 0 ==> wait * 1_000_000 >= left)
  {
    var i := LastBar(accounts, attempt, lockout).value;
    var after := AccountsAfter(accounts, attempt, verify, lockout);
    forall j | 0 <= j < |accounts|
      ensures Bars(accounts[j], attempt, lockout) <==> TurnsAway(accounts[j], attempt, lockout)
    {
    }
    assert TurnsAway(accounts[i], attempt, lockout) && after[i].lockedUntil.Some?;
    TruncatedMeans(after[i].lockedUntil.value - attempt.now);
  }

  lemma TruncatedMeans(x: int)
    ensures -1_000_000 < x - Truncated(x, SECOND) * 1_000_000 < 1_000_000
    ensures x >= 0 ==> Truncated(x, SECOND) * 1_000_000 <= x
    ensures x <= 0 ==> Truncated(x, SECOND) * 1_000_000 >= x
  {
  }

  /** While an account is locked no attempt touches it or signs in as it, whatever the password. */
  lemma LockedAccountRejects(accounts: seq<Account>, i: nat, attempt: Attempt, verify: Verifier, lockout: Lockout)
    requires i < |accounts| && Locked(accounts[i], attempt.now)
    ensures AccountAfter(accounts, i, attempt, verify, lockout) == accounts[i]
    ensures FirstMatch(accounts, attempt, verify) != i
  {
  }

  /** With a positive duration, a candidate bars the attempt that nobody accepts iff it ends locked. */
  lemma BarsIffEndsLocked(accounts: seq<Account>, i: nat, attempt: Attempt, verify: Verifier, lockout: Lockout)
    requires i < |accounts| && FirstMatch(accounts, attempt, verify) == |accounts| && lockout.durationSeconds > 0
    ensures Bars(accounts[i], attempt, lockout) <==>
      Candidate(accounts[i], attempt) && Locked(AccountAfter(accounts, i, attempt, verify, lockout), attempt.now)
  {
  }

  // Runs of attempts.

  ghost predicate IsRun(trace: seq<seq<Account>>, attempts: seq<Attempt>, verify: Verifier, lockout: Lockout) {
    && |trace| == |attempts| + 1
    && forall k :: 0 <= k < |attempts| ==> trace[k + 1] == AccountsAfter(trace[k], attempts[k], verify, lockout)
  }

  ghost predicate ClockForward(attempts: seq<Attempt>) {
    forall j, k :: 0 <= j < k < |attempts| ==> attempts[j].now <= attempts[k].now
  }

  /** A lock is set iff the counter has reached the threshold, and it ends within the duration. */
  ghost predicate LockOk(a: Account, now: int, lockout: Lockout) {
    && (a.lockedUntil.Some? <==> a.failedAttempts >= lockout.threshold)
    && (a.lockedUntil.Some? ==> a.lockedUntil.value <= now + lockout.Duration())
  }

  ghost predicate LocksOk(accounts: seq<Account>, now: int, lockout: Lockout) {
    forall i :: 0 <= i < |accounts| ==> LockOk(accounts[i], now, lockout)
  }

  lemma AttemptKeepsLocks(accounts: seq<Account>, now: int, attempt: Attempt, verify: Verifier, lockout: Lockout)
    requires LocksOk(accounts, now, lockout) && now <= attempt.now && lockout.threshold >= 1
    ensures LocksOk(AccountsAfter(accounts, attempt, verify, lockout), attempt.now, lockout)
  {
    forall i | 0 <= i < |accounts|
      ensures LockOk(AccountsAfter(accounts, attempt, verify, lockout)[i], attempt.now, lockout)
    {
      assert LockOk(accounts[i], now, lockout);
    }
  }

  /** In every state of every run, locks and counters agree. */
  lemma {:induction false} RunKeepsLocks(
    trace: seq<seq<Account>>, attempts: seq<Attempt>, verify: Verifier, lockout: Lockout, start: int, k: nat)
    requires IsRun(trace, attempts, verify, lockout) && k < |trace| && lockout.threshold >= 1
    requires ClockForward(attempts) && forall j :: 0 <= j < |attempts| ==> start <= attempts[j].now
    requires LocksOk(trace[0], start, lockout)
    ensures LocksOk(trace[k], if k == 0 then start else attempts[k - 1].now, lockout)
  {
    if k > 0 {
      RunKeepsLocks(trace, attempts, verify, lockout, start, k - 1);
      AttemptKeepsLocks(trace[k - 1], if k == 1 then start else attempts[k - 2].now, attempts[k - 1], verify, lockout);
    }
  }

  /** Every wait a caller is told lies between zero and the duration. */
  lemma RetryAfterBounded(accounts: seq<Account>, now: int, attempt: Attempt, verify: Verifier, lockout: Lockout)
    requires LocksOk(accounts, now, lockout) && now <= attempt.now
    requires lockout.threshold >= 1 && lockout.durationSeconds >= 0
    ensures var answer := AnswerTo(accounts, attempt, verify, lockout);
      answer.AccountLocked? ==> 0 <= answer.retryAfter <= lockout.durationSeconds
  {
    if AnswerTo(accounts, attempt, verify, lockout).AccountLocked? {
      var i := LastBar(accounts, attempt, lockout).value;
      AttemptKeepsLocks(accounts, now, attempt, verify, lockout);
      var after := AccountsAfter(accounts, attempt, verify, lockout)[i];
      assert LockOk(accounts[i], now, lockout) && LockOk(after, attempt.now, lockout);
      DivideBounded(after.lockedUntil.value - attempt.now, lockout.durationSeconds);
    }
  }

  lemma DivideBounded(x: int, n: int)
    requires 0 <= x <= n * SECOND
    ensures 0 <= x / SECOND <= n
  {
  }

  // What the counter counts, over runs with and without sign-ins.

  /** Whether a pass checks the password of account `i`, and whether the password fits. */
  ghost predicate Tried(accounts: seq<Account>, i: nat, attempt: Attempt, verify: Verifier, fits: bool)
    requires i < |accounts|
  {
    var a := accounts[i];
    && a.email == attempt.email && a.isActive && (a.lockedUntil.None? || a.lockedUntil.value <= attempt.now)
    && verify(attempt.password, a.hash, a.salt) == fits
    && Reached(accounts, i, attempt, verify)
  }

  /** How many wrong passwords have been checked since the last sign-in to account `i`. */
  ghost function MissesSince(trace: seq<seq<Account>>, attempts: seq<Attempt>, verify: Verifier, i: nat, k: nat): nat
    requires k <= |attempts| && |trace| == |attempts| + 1
    requires forall j :: 0 <= j < k ==> i < |trace[j]|
  {
    if k == 0 then 0
    else if Tried(trace[k - 1], i, attempts[k - 1], verify, true) then 0
    else
      MissesSince(trace, attempts, verify, i, k - 1) +
      if Tried(trace[k - 1], i, attempts[k - 1], verify, false) then 1 else 0
  }

  /** When account `i` was last signed in to. */
  ghost function LastSignIn(
    trace: seq<seq<Account>>, attempts: seq<Attempt>, verify: Verifier, i: nat, k: nat): Option<int>
    requires k <= |attempts| && |trace| == |attempts| + 1
    requires forall j :: 0 <= j < k ==> i < |trace[j]|
  {
    if k == 0 then None
    else if Tried(trace[k - 1], i, attempts[k - 1], verify, true) then Some(attempts[k - 1].now)
    else LastSignIn(trace, attempts, verify, i, k - 1)
  }

  lemma TriedIs(accounts: seq<Account>, i: nat, attempt: Attempt, verify: Verifier, lockout: Lockout)
    requires i < |accounts|
    ensures Tried(accounts, i, attempt, verify, true) <==>
      Checked(accounts, i, attempt, verify) && i == FirstMatch(accounts, attempt, verify)
    ensures Tried(accounts, i, attempt, verify, false) <==>
      Checked(accounts, i, attempt, verify) && i < FirstMatch(accounts, attempt, verify)
  {
    SignsInIff(accounts, i, attempt, verify, lockout);
  }

  /** In every run, sign-ins included: the counter is the number of wrong passwords since the last
      sign-in, the account has a lock iff those have reached the threshold, and its last login is the
      last sign-in. */
  lemma {:induction false} CountsSinceSignIn(
    trace: seq<seq<Account>>, attempts: seq<Attempt>, verify: Verifier, lockout: Lockout, i: nat, k: nat)
    requires IsRun(trace, attempts, verify, lockout) && k <= |attempts| && lockout.threshold >= 1
    requires forall j :: 0 <= j < |trace| ==> i < |trace[j]|
    requires trace[0][i].failedAttempts == 0 && trace[0][i].lockedUntil == None && trace[0][i].lastLogin == None
    ensures var misses := MissesSince(trace, attempts, verify, i, k);
      && trace[k][i].failedAttempts == misses
      && (trace[k][i].lockedUntil.Some? <==> misses >= lockout.threshold)
      && trace[k][i].lastLogin == LastSignIn(trace, attempts, verify, i, k)
  {
    if k > 0 {
      CountsSinceSignIn(trace, attempts, verify, lockout, i, k - 1);
      TriedIs(trace[k - 1], i, attempts[k - 1], verify, lockout);
      assert trace[k][i] == AccountAfter(trace[k - 1], i, attempts[k - 1], verify, lockout);
    }
  }

  // How often an account's password can be guessed.

  /** How many of the first `k` attempts checked the password of account `i`. */
  ghost function Checks(trace: seq<seq<Account>>, attempts: seq<Attempt>, verify: Verifier, i: nat, k: nat): nat
    requires k <= |attempts| && |trace| == |attempts| + 1
    requires forall j :: 0 <= j < k ==> i < |trace[j]|
  {
    if k == 0 then 0
    else
      Checks(trace, attempts, verify, i, k - 1) +
      if Checked(trace[k - 1], i, attempts[k - 1], verify) then 1 else 0
  }

  /** A run in which account `i` starts clean at time `start` and is never signed in to. */
  ghost predicate Guessing(
    trace: seq<seq<Account>>, attempts: seq<Attempt>, verify: Verifier, lockout: Lockout, i: nat, start: int)
  {
    && IsRun(trace, attempts, verify, lockout) && ClockForward(attempts)
    && (forall k :: 0 <= k < |attempts| ==> start <= attempts[k].now)
    && (forall k :: 0 <= k < |trace| ==> |trace[k]| > i)
    && trace[0][i].failedAttempts == 0 && trace[0][i].lockedUntil == None
    && (forall k :: 0 <= k < |attempts| ==> FirstMatch(trace[k], attempts[k], verify) != i)
  }

  /** The counter is the number of checks; once it has reached the threshold, each further check
      had to wait out a lock, so the last check came late enough. */
  ghost predicate Paced(a: Account, checks: nat, lockout: Lockout, start: int, now: int) {
    && a.failedAttempts == checks
    && (checks < lockout.threshold ==> a.lockedUntil == None)
    && (checks >= lockout.threshold ==>
          && a.lockedUntil.Some?
          && var last := a.lockedUntil.value - lockout.Duration();
             start <= last <= now && (checks - lockout.threshold) * lockout.Duration() <= last - start)
  }

  lemma {:induction false} GuessesPaced(
    trace: seq<seq<Account>>, attempts: seq<Attempt>, verify: Verifier, lockout: Lockout, i: nat, start: int, k: nat)
    requires Guessing(trace, attempts, verify, lockout, i, start) && k <= |attempts|
    requires lockout.threshold >= 1 && lockout.durationSeconds > 0
    ensures Paced(trace[k][i], Checks(trace, attempts, verify, i, k), lockout, start,
                  if k == 0 then start else attempts[k - 1].now)
  {
    if k > 0 {
      GuessesPaced(trace, attempts, verify, lockout, i, start, k - 1);
      var before, attempt := trace[k - 1], attempts[k - 1];
      assert trace[k][i] == AccountAfter(before, i, attempt, verify, lockout);
      if Checked(before, i, attempt, verify) {
        PacedStep(before[i], Checks(trace, attempts, verify, i, k - 1), lockout, start,
                  if k == 1 then start else attempts[k - 2].now, attempt.now);
      }
    }
  }

  lemma PacedStep(a: Account, checks: nat, lockout: Lockout, start: int, before: int, now: int)
    requires Paced(a, checks, lockout, start, before) && !Locked(a, now) && start <= now && before <= now
    requires lockout.threshold >= 1 && lockout.durationSeconds > 0
    ensures Paced(Failed(a, now, lockout), checks + 1, lockout, start, now)
  {
    var d, n := lockout.Duration(), checks - lockout.threshold;
    assert (n + 1) * d == n * d + d;
  }

  /** The guess bound: by time `t`, at most THRESHOLD checks plus one per full DURATION elapsed. */
  lemma GuessBound(
    trace: seq<seq<Account>>, attempts: seq<Attempt>, verify: Verifier, lockout: Lockout, i: nat,
    start: int, k: nat, t: int)
    requires Guessing(trace, attempts, verify, lockout, i, start) && k <= |attempts|
    requires lockout.threshold >= 1 && lockout.durationSeconds > 0
    requires start <= t && (k > 0 ==> attempts[k - 1].now <= t)
    ensures Checks(trace, attempts, verify, i, k) <= lockout.threshold + (t - start) / lockout.Duration()
  {
    GuessesPaced(trace, attempts, verify, lockout, i, start, k);
    var checks := Checks(trace, attempts, verify, i, k);
    if checks >= lockout.threshold {
      QuotientAtLeast(checks - lockout.threshold, lockout.Duration(), t - start);
    } else {
      QuotientAtLeast(0, lockout.Duration(), t - start);
    }
  }

  lemma QuotientAtLeast(n: nat, d: int, x: int)
    requires d > 0 && n * d <= x
    ensures n <= x / d
  {
    var q := x / d;
    assert x == q * d + x % d && (q + 1) * d == q * d + d;
    if q + 1 <= n {
      MulMonotone(q + 1, n, d);
    }
  }

  lemma MulMonotone(a: int, b: int, d: int)
    requires a <= b && d > 0
    ensures a * d <= b * d
  {
  }

  // The bound is attained: guess until locked, then once at the end of every lock.

  function GuessTime(j: int, lockout: Lockout, start: int): int {
    if j < lockout.threshold then start else start + (j - lockout.threshold + 1) * lockout.Duration()
  }

  function Guesses(n: nat, email: string, lockout: Lockout, start: int): (r: seq<Attempt>)
    ensures |r| == n && forall j :: 0 <= j < n ==> r[j] == Attempt(email, "guess", GuessTime(j, lockout, start))
  {
    seq(n, j requires 0 <= j < n => Attempt(email, "guess", GuessTime(j, lockout, start)))
  }

  /** The account after `j` such guesses. */
  function Guessed(a: Account, j: nat, lockout: Lockout, start: int): Account {
    a.(failedAttempts := j,
       lockedUntil := if j < lockout.threshold then None
                      else Some(GuessTime(j - 1, lockout, start) + lockout.Duration()))
  }

  function GuessTrace(a: Account, n: nat, lockout: Lockout, start: int): (r: seq<seq<Account>>)
    ensures |r| == n + 1 && forall j :: 0 <= j <= n ==> r[j] == [Guessed(a, j, lockout, start)]
  {
    seq(n + 1, j requires 0 <= j <= n => [Guessed(a, j, lockout, start)])
  }

  lemma GuessStep(a: Account, j: nat, lockout: Lockout, start: int, verify: Verifier)
    requires a.isActive && lockout.threshold >= 1 && lockout.durationSeconds > 0
    requires !verify("guess", a.hash, a.salt)
    ensures var before := [Guessed(a, j, lockout, start)];
      var attempt := Attempt(a.email, "guess", GuessTime(j, lockout, start));
      && Checked(before, 0, attempt, verify) && FirstMatch(before, attempt, verify) == 1
      && AccountsAfter(before, attempt, verify, lockout) == [Guessed(a, j + 1, lockout, start)]
  {
    var before := [Guessed(a, j, lockout, start)];
    var attempt := Attempt(a.email, "guess", GuessTime(j, lockout, start));
    if j >= lockout.threshold {
      var n, d := j - lockout.threshold, lockout.Duration();
      assert (n + 1) * d == n * d + d;
      assert GuessTime(j, lockout, start) == GuessTime(j - 1, lockout, start) + d;
    }
    FirstMatchIs(before, 1, attempt, verify);
    assert AccountsAfter(before, attempt, verify, lockout)[0] == Guessed(a, j + 1, lockout, start);
  }

  lemma {:induction false} GuessRunChecks(a: Account, n: nat, k: nat, lockout: Lockout, start: int, verify: Verifier)
    requires a.isActive && lockout.threshold >= 1 && lockout.durationSeconds > 0 && k <= n
    requires !verify("guess", a.hash, a.salt)
    ensures Checks(GuessTrace(a, n, lockout, start), Guesses(n, a.email, lockout, start), verify, 0, k) == k
  {
    if k > 0 {
      GuessRunChecks(a, n, k - 1, lockout, start, verify);
      GuessStep(a, k - 1, lockout, start, verify);
    }
  }

  lemma GuessTimesForward(j: nat, k: nat, lockout: Lockout, start: int)
    requires j <= k && lockout.durationSeconds > 0
    ensures start <= GuessTime(j, lockout, start) <= GuessTime(k, lockout, start)
  {
    var m := if j < lockout.threshold then 0 else j - lockout.threshold + 1;
    var n := if k < lockout.threshold then 0 else k - lockout.threshold + 1;
    MulMonotone(0, m, lockout.Duration());
    MulMonotone(m, n, lockout.Duration());
  }

  lemma GuessRunIsRun(a: Account, n: nat, lockout: Lockout, start: int, verify: Verifier)
    requires a.isActive && lockout.threshold >= 1 && lockout.durationSeconds > 0
    requires !verify("guess", a.hash, a.salt)
    ensures var attempts, trace := Guesses(n, a.email, lockout, start), GuessTrace(a, n, lockout, start);
      && IsRun(trace, attempts, verify, lockout)
      && forall k :: 0 <= k < n ==> FirstMatch(trace[k], attempts[k], verify) != 0
  {
    forall k | 0 <= k < n
      ensures var attempts, trace := Guesses(n, a.email, lockout, start), GuessTrace(a, n, lockout, start);
        && trace[k + 1] == AccountsAfter(trace[k], attempts[k], verify, lockout)
        && FirstMatch(trace[k], attempts[k], verify) != 0
    {
      GuessStep(a, k, lockout, start, verify);
    }
  }

  lemma GuessRunGuesses(a: Account, n: nat, lockout: Lockout, start: int, verify: Verifier)
    requires a.isActive && a.failedAttempts == 0 && a.lockedUntil == None
    requires lockout.threshold >= 1 && lockout.durationSeconds > 0 && !verify("guess", a.hash, a.salt)
    ensures GuessTrace(a, n, lockout, start)[0] == [a]
    ensures Guessing(GuessTrace(a, n, lockout, start), Guesses(n, a.email, lockout, start), verify, lockout, 0, start)
  {
    assert Guessed(a, 0, lockout, start) == a;
    GuessRunIsRun(a, n, lockout, start, verify);
    forall j, k | 0 <= j <= k < n
      ensures start <= GuessTime(j, lockout, start) <= GuessTime(k, lockout, start)
    {
      GuessTimesForward(j, k, lockout, start);
    }
  }

  /** For every number of durations there is a run with exactly as many checks as the bound allows. */
  lemma GuessBoundAttained(a: Account, durations: nat, lockout: Lockout, start: int, verify: Verifier)
    requires a.isActive && a.failedAttempts == 0 && a.lockedUntil == None
    requires lockout.threshold >= 1 && lockout.durationSeconds > 0 && !verify("guess", a.hash, a.salt)
    ensures var n := lockout.threshold + durations;
      var attempts, trace := Guesses(n, a.email, lockout, start), GuessTrace(a, n, lockout, start);
      && trace[0] == [a] && Guessing(trace, attempts, verify, lockout, 0, start)
      && attempts[n - 1].now == start + durations * lockout.Duration()
      && Checks(trace, attempts, verify, 0, n) == lockout.threshold + durations
  {
    var n := lockout.threshold + durations;
    GuessRunGuesses(a, n, lockout, start, verify);
    GuessRunChecks(a, n, n, lockout, start, verify);
  }
}
