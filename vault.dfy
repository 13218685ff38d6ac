/**
 * The Vault provisioning of vault/vault_setup.py.
 *
 * VaultConfig initializes the Vault server when it is not initialized yet
 * (keeping the root token and the first unseal key, and writing them to a
 * dated credentials file), unseals it when it is sealed, and then has a
 * VaultClient make sure a kv secret engine, a policy over that engine, a
 * userpass auth method and a user bound to the policy exist, in that order.
 *
 * The Vault server is a `Server` object: whether it is initialized and sealed,
 * its mounts, policies and users (`state`), and the calls it has received
 * (`log`). Each call's result is an input (`answer`, given the call's position
 * in the log): either the client library raised, or the call completed with a
 * status code and a body. A write changes the state only when it completed
 * with 204 No Content.
 */
module Vault {
  import opened Outcomes

  /** A userpass user is identified by its auth mount and its name. */
  datatype UserKey = UserKey(mount: string, username: string)

  /** What the server keeps for a userpass user: its password and its policies. */
  datatype UserEntry = UserEntry(password: string, policies: string)

  /**
   * The server: engine and auth mounts are keyed by their path with a
   * trailing slash, as the listings return them, and map to their type.
   */
  datatype State = State(
    initialized: bool, sealed: bool,
    engines: map<string, string>, policies: map<string, string>,
    authMethods: map<string, string>, users: map<UserKey, UserEntry>)

  /** The calls the scripts make through the client library. */
  datatype Request =
    | IsInitialized
    | Initialize(shares: int, threshold: int)
    | IsSealed
    | SubmitUnsealKeys(keys: seq<string>)
    | ListEngines
    | EnableEngine(path: string, backendType: string, description: string)
    | ListPolicies
    | WritePolicy(name: string, policy: string)
    | ListAuthMethods
    | EnableAuth(authPath: string, methodType: string)
    | ListUsers(mount: string)
    | WriteUser(username: string, password: string, userPolicies: string, mountPoint: string)
  {
    /** The step that makes the call: 0 initialize and unseal, then 1 engine, 2 policy, 3 auth method, 4 user. */
    function Phase(): nat
    {
      match this
      case IsInitialized => 0
      case Initialize(_, _) => 0
      case IsSealed => 0
      case SubmitUnsealKeys(_) => 0
      case ListEngines => 1
      case EnableEngine(_, _, _) => 1
      case ListPolicies => 2
      case WritePolicy(_, _) => 2
      case ListAuthMethods => 3
      case EnableAuth(_, _) => 3
      case ListUsers(_) => 4
      case WriteUser(_, _, _, _) => 4
    }
  }

  /** The body of a completed call: initialization returns the root token and the key shares. */
  datatype Body = NoBody | InitBody(rootToken: string, keys: seq<string>, keysBase64: seq<string>)

  /** A call either raised inside the client library or completed. */
  datatype Reply = Fault | Done(status: int, body: Body)

  /** Why a step raised: a call raised, or the initialization result lacked a field or a key. */
  datatype Failure = CallFailed(call: Request) | MalformedInit

  /** The state after the call `r` completed with `reply`. */
  function After(s: State, r: Request, reply: Reply): State
  {
    match r
    case Initialize(_, _) => if reply.Done? then s.(initialized := true) else s
    case SubmitUnsealKeys(_) => if reply.Done? && reply.status == 200 then s.(sealed := false) else s
    case EnableEngine(path, backendType, _) =>
      if reply.Done? && reply.status == 204 then s.(engines := s.engines[path + "/" := backendType]) else s
    case WritePolicy(name, policy) =>
      if reply.Done? && reply.status == 204 then s.(policies := s.policies[name := policy]) else s
    case EnableAuth(path, methodType) =>
      if reply.Done? && reply.status == 204 then s.(authMethods := s.authMethods[path + "/" := methodType]) else s
    case WriteUser(username, password, policies, mount) =>
      if reply.Done? && reply.status == 204
      then s.(users := s.users[UserKey(mount, username) := UserEntry(password, policies)])
      else s
    case _ => s
  }

  /** The Vault server. */
  class Server {
    var state: State
    var log: seq<Request>

    constructor (initial: State)
      ensures state == initial && log == []
    {
      state := initial;
      log := [];
    }

    /** Receives `r`; the result is the one `answer` gives at this position of the log. */
    method Send(r: Request, answer: (nat, Request) -> Reply) returns (reply: Reply)
      modifies this
      ensures reply == answer(|old(log)|, r)
      ensures log == old(log) + [r]
      ensures state == After(old(state), r, reply)
    {
      reply := answer(|log|, r);
      log := log + [r];
      state := After(state, r, reply);
    }
  }

  /** The failure a call's result raises in the caller, unless the caller catches it. */
  function Raises(r: Request, reply: Reply): Option<Failure>
  {
    if reply.Fault? then Some(CallFailed(r))
    else if r.Initialize? && !(reply.body.InitBody? && reply.body.keys != [] && reply.body.keysBase64 != [])
    then Some(MalformedInit)
    else None
  }

  /**
   * The call at position `i` sits inside create_user's `try`, so what it
   * raises is caught: a user listing that the `except` branch follows with a
   * write to the same mount, and a first write that the `except` branch
   * makes once more.
   */
  predicate Caught(log: seq<Request>, i: nat)
    requires i + 1 < |log|
  {
    || (log[i].ListUsers? && log[i + 1].WriteUser? && log[i + 1].mountPoint == log[i].mount)
    || (log[i].WriteUser? && log[i + 1] == log[i])
  }

  /**
   * From position `n` on, `log` went on while the results allowed it: no
   * call before the last one raised unless it was caught, and the outcome is
   * the last call's failure if it has one, and a normal return otherwise.
   */
  ghost predicate StopsAtFailure(log: seq<Request>, n: nat, answer: (nat, Request) -> Reply, outcome: Outcome<Failure>)
  {
    && n <= |log|
    && (forall i :: n <= i < |log| - 1 ==> Raises(log[i], answer(i, log[i])).None? || Caught(log, i))
    && (outcome.Raised? <==> n < |log| && Raises(log[|log| - 1], answer(|log| - 1, log[|log| - 1])).Some?)
    && (outcome.Raised? ==> Raises(log[|log| - 1], answer(|log| - 1, log[|log| - 1])) == Some(outcome.error))
  }

  /** A part that returned, followed by another part, stops where the second one stops. */
  lemma StopsCompose(log1: seq<Request>, log2: seq<Request>, n: nat, answer: (nat, Request) -> Reply,
                     outcome: Outcome<Failure>)
    requires |log1| <= |log2| && log2[..|log1|] == log1
    requires StopsAtFailure(log1, n, answer, Returned)
    requires StopsAtFailure(log2, |log1|, answer, outcome)
    ensures StopsAtFailure(log2, n, answer, outcome)
  {
    forall i | n <= i < |log2| - 1
      ensures Raises(log2[i], answer(i, log2[i])).None? || Caught(log2, i)
    {
      if i < |log1| {
        assert log2[i] == log1[i];
        if i + 1 < |log1| {
          assert log2[i + 1] == log1[i + 1];
        }
      }
    }
  }

  /** Every call of `log` from position `n` on belongs to step `phase`. */
  ghost predicate InPhase(log: seq<Request>, n: nat, phase: nat)
  {
    forall i :: n <= i < |log| ==> log[i].Phase() == phase
  }

  /** From position `n` on, no call of `log` belongs to a step after `phase`. */
  ghost predicate PhasesAtMost(log: seq<Request>, n: nat, phase: nat)
  {
    forall i :: n <= i < |log| ==> log[i].Phase() <= phase
  }

  /** From position `n` on, every call of `log` belongs to step `phase` or a later one, up to step 4. */
  ghost predicate PhasesFrom(log: seq<Request>, n: nat, phase: nat)
  {
    forall i :: n <= i < |log| ==> phase <= log[i].Phase() <= 4
  }

  /** From position `n` on, the steps of `log` never go back. */
  ghost predicate PhasesAscend(log: seq<Request>, n: nat)
  {
    forall i, j :: n <= i < j < |log| ==> log[i].Phase() <= log[j].Phase()
  }

  /** Step `phase` made some call of `log` from position `n` on. */
  ghost predicate Ran(log: seq<Request>, n: nat, phase: nat)
  {
    exists i :: n <= i < |log| && log[i].Phase() == phase
  }

  /** Steps `lo` to `hi` - 1 each made some call of `log` from position `n` on. */
  ghost predicate Covers(log: seq<Request>, n: nat, lo: nat, hi: nat)
  {
    forall phase :: lo <= phase < hi ==> Ran(log, n, phase)
  }

  /** After steps `lo` to `phase` - 1 returned, step `phase` ran and made at least one call. */
  lemma Advance(log1: seq<Request>, log2: seq<Request>, n: nat, answer: (nat, Request) -> Reply,
                outcome: Outcome<Failure>, lo: nat, phase: nat)
    requires n <= |log1| < |log2| && log2[..|log1|] == log1
    requires PhasesAscend(log1, n) && PhasesAtMost(log1, n, phase) && Covers(log1, n, lo, phase)
    requires StopsAtFailure(log1, n, answer, Returned)
    requires InPhase(log2, |log1|, phase) && StopsAtFailure(log2, |log1|, answer, outcome)
    ensures PhasesAscend(log2, n) && PhasesAtMost(log2, n, phase) && Covers(log2, n, lo, phase + 1)
    ensures StopsAtFailure(log2, n, answer, outcome)
  {
    StopsCompose(log1, log2, n, answer, outcome);
    forall i | n <= i < |log2|
      ensures log2[i].Phase() <= phase
    {
      if i < |log1| {
        assert log2[i] == log1[i];
      }
    }
    forall i, j | n <= i < j < |log2|
      ensures log2[i].Phase() <= log2[j].Phase()
    {
      if j < |log1| {
        assert log2[i] == log1[i] && log2[j] == log1[j];
      } else if i < |log1| {
        assert log2[i] == log1[i];
      }
    }
    forall p | lo <= p < phase + 1
      ensures Ran(log2, n, p)
    {
      if p < phase {
        assert Ran(log1, n, p);
        var i :| n <= i < |log1| && log1[i].Phase() == p;
        assert log2[i] == log1[i];
      } else {
        assert log2[|log1|].Phase() == p;
      }
    }
  }

  /** Calls all of step `phase`, at most step 4, ascend and start from `phase`. */
  lemma InPhaseOrderly(log: seq<Request>, n: nat, phase: nat)
    requires phase <= 4 && InPhase(log, n, phase)
    ensures PhasesAscend(log, n) && PhasesFrom(log, n, phase)
  {
  }

  /** Calls of step `phase` up to the end of `first`, then of later steps, ascend and start from `phase`. */
  lemma PhasesJoin(first: seq<Request>, all: seq<Request>, n: nat, phase: nat)
    requires |first| <= |all| && all[..|first|] == first && phase <= 4
    requires InPhase(first, n, phase) && PhasesAscend(all, |first|) && PhasesFrom(all, |first|, phase + 1)
    ensures PhasesAscend(all, n) && PhasesFrom(all, n, phase)
  {
    forall i | n <= i < |first|
      ensures all[i].Phase() == phase
    {
      assert all[i] == first[i];
    }
  }

  /** A nonempty part of step `phase`, followed by calls covering steps `phase` + 1 to 4. */
  lemma CoversJoin(first: seq<Request>, all: seq<Request>, n: nat, phase: nat)
    requires n < |first| <= |all| && all[..|first|] == first
    requires InPhase(first, n, phase) && Covers(all, |first|, phase + 1, 5)
    ensures Covers(all, n, phase, 5)
  {
    forall q | phase <= q < 5
      ensures Ran(all, n, q)
    {
      if q == phase {
        assert all[n] == first[n];
      } else {
        assert Ran(all, |first|, q);
      }
    }
  }

  // ----- get_policy -----

  /** The indentation of the policy's lines. */
  const Indent: string := "                "

  /** What comes before the engine's name in the policy. */
  const PolicyHead: string := "\n" + Indent + "path \""

  /** What comes after the engine's name in the policy: the one capabilities line and the closing brace. */
  function PolicyTail(): string
  {
    "/*\" {\n" + Indent + "capabilities = [\"create\", \"read\", \"update\", \"delete\", \"list\"]\n" + Indent + "}\n" + Indent
  }

  /** get_policy: one path block over everything under the engine. */
  function PolicyText(engine: string): string
  {
    PolicyHead + engine + PolicyTail()
  }

  /** The engine a policy text written by PolicyText grants access to. */
  function PolicyEngine(text: string): (engine: Option<string>)
  {
    var h, t := |PolicyHead|, |PolicyTail()|;
    if |text| >= h + t && text[..h] == PolicyHead && text[|text| - t..] == PolicyTail()
    then Some(text[h..|text| - t])
    else None
  }

  /** A text made of three parts splits back into them at their lengths. */
  lemma SplitThree(head: string, middle: string, tail: string)
    ensures var text := head + middle + tail;
            && |text| == |head| + |middle| + |tail|
            && text[..|head|] == head && text[|text| - |tail|..] == tail
            && text[|head|..|text| - |tail|] == middle
  {
    var text := head + middle + tail;
    assert text[..|head|] == head;
    assert text[|text| - |tail|..] == tail;
    assert text[|head|..|text| - |tail|] == middle;
  }

  /** The policy names its engine: reading the engine back gives it. */
  lemma PolicyEngineOfText(engine: string)
    ensures PolicyEngine(PolicyText(engine)) == Some(engine)
  {
    SplitThree(PolicyHead, engine, PolicyTail());
  }

  /** A text that reads as a policy over `engine` is exactly that engine's policy. */
  lemma PolicyTextOfEngine(text: string, engine: string)
    requires PolicyEngine(text) == Some(engine)
    ensures text == PolicyText(engine)
  {
    var h, t := |PolicyHead|, |PolicyTail()|;
    assert text == text[..h] + text[h..|text| - t] + text[|text| - t..];
  }

  /** Different engines get different policies. */
  lemma PolicyTextInjective(a: string, b: string)
    requires PolicyText(a) == PolicyText(b)
    ensures a == b
  {
    PolicyEngineOfText(a);
    PolicyEngineOfText(b);
  }

  // ----- the credentials filename -----

  /** A calendar date as `datetime` holds it. */
  datatype Date = Date(day: nat, month: nat, year: nat)
  {
    ghost predicate Valid()
    {
      1 <= day <= 31 && 1 <= month <= 12 && 1 <= year <= 9999
    }
  }

  function Pow10(k: nat): (p: nat)
    ensures p >= 1
  {
    if k == 0 then 1 else 10 * Pow10(k - 1)
  }

  function DigitChar(d: nat): char
    requires d < 10
  {
    ('0' as int + d) as char
  }

  /** `n` in decimal on exactly `width` digits, zero-padded on the left. */
  function Digits(n: nat, width: nat): (s: string)
    requires n < Pow10(width)
    ensures |s| == width
    ensures forall i :: 0 <= i < |s| ==> '0' <= s[i] <= '9'
  {
    if width == 0 then "" else Digits(n / 10, width - 1) + [DigitChar(n % 10)]
  }

  /** The value of a string of decimal digits. */
  function DigitsValue(s: string): nat
    requires forall i :: 0 <= i < |s| ==> '0' <= s[i] <= '9'
  {
    if s == [] then 0 else 10 * DigitsValue(s[..|s| - 1]) + (s[|s| - 1] - '0') as nat
  }

  /** Reading the digits back gives the number. */
  lemma {:induction false} DigitsRoundTrip(n: nat, width: nat)
    requires n < Pow10(width)
    ensures DigitsValue(Digits(n, width)) == n
  {
    if width > 0 {
      DigitsRoundTrip(n / 10, width - 1);
      var s := Digits(n, width);
      assert s[..|s| - 1] == Digits(n / 10, width - 1);
      assert (s[|s| - 1] - '0') as nat == n % 10;
    }
  }

  const CredentialsPrefix: string := "vault_root_creds_"
  const CredentialsSuffix: string := ".json"

  /** `vault_root_creds_` followed by the date as `%d%m%Y`, then `.json`. */
  function CredentialsFilename(date: Date): string
    requires date.Valid()
  {
    CredentialsPrefix + Digits(date.day, 2) + Digits(date.month, 2) + Digits(date.year, 4) + CredentialsSuffix
  }

  /** The date a credentials filename carries, if it has the credentials file's form. */
  function FilenameDate(name: string): (date: Option<Date>)
  {
    if |name| == 30 && name[..17] == CredentialsPrefix && name[25..] == CredentialsSuffix
       && forall i :: 17 <= i < 25 ==> '0' <= name[i] <= '9'
    then Some(Date(DigitsValue(name[17..19]), DigitsValue(name[19..21]), DigitsValue(name[21..25])))
    else None
  }

  /** A text made of five parts splits back into them at their lengths. */
  lemma SplitFive(a: string, b: string, c: string, d: string, e: string)
    ensures var text := a + b + c + d + e;
            var i, j, k := |a|, |a| + |b|, |a| + |b| + |c|;
            var l := k + |d|;
            && |text| == l + |e|
            && text[..i] == a && text[i..j] == b && text[j..k] == c && text[k..l] == d && text[l..] == e
  {
    var text := a + b + c + d + e;
    var i, j, k := |a|, |a| + |b|, |a| + |b| + |c|;
    var l := k + |d|;
    assert text[..i] == a;
    assert text[i..j] == b;
    assert text[j..k] == c;
    assert text[k..l] == d;
    assert text[l..] == e;
  }

  /** The filename has a fixed length and carries its date: reading it back gives the date. */
  lemma FilenameRoundTrip(date: Date)
    requires date.Valid()
    ensures |CredentialsFilename(date)| == 30
    ensures FilenameDate(CredentialsFilename(date)) == Some(date)
  {
    var d, m, y := Digits(date.day, 2), Digits(date.month, 2), Digits(date.year, 4);
    SplitFive(CredentialsPrefix, d, m, y, CredentialsSuffix);
    var name := CredentialsFilename(date);
    forall i | 17 <= i < 25
      ensures '0' <= name[i] <= '9'
    {
      if i < 19 {
        assert name[i] == name[17..19][i - 17];
      } else if i < 21 {
        assert name[i] == name[19..21][i - 19];
      } else {
        assert name[i] == name[21..25][i - 21];
      }
    }
    DigitsRoundTrip(date.day, 2);
    DigitsRoundTrip(date.month, 2);
    DigitsRoundTrip(date.year, 4);
  }

  /** The credentials file: its name and the three values dumped into it. */
  datatype CredentialsFile = CredentialsFile(name: string, token: string, keys: string, keysBase64: string)

  /** `os.environ.get(name, "")`: the variable's value, or the empty string when it is unset. */
  function OrEmpty(value: Option<string>): string
  {
    if value.Some? then value.value else ""
  }

  /** The VAULT_TOKEN, VAULT_KEYS and VAULT_KEYS_BASE64 environment variables. */
  datatype External = External(token: Option<string>, keys: Option<string>, keysBase64: Option<string>)

  // ----- initialize_and_unseal_vault, as functions of the results -----

  /** The root token and the unseal keys VaultConfig holds. */
  datatype Kept = Kept(token: Option<string>, keys: Option<string>, keysBase64: Option<string>)

  /**
   * What a run of initialize_and_unseal_vault, or of its initialize half,
   * does: the calls it sends, the server after them, the token and keys it
   * keeps, the credentials file it writes and how it ends.
   */
  datatype Ending = Ending(sent: seq<Request>, state: State, kept: Kept, written: Option<CredentialsFile>,
                           outcome: Outcome<Failure>)

  /** The calls a part sends, the server after them, and how it ends. */
  datatype Calls = Calls(sent: seq<Request>, state: State, outcome: Outcome<Failure>)

  /** A part, then, unless it raised, another: the calls of both, then the state and ending of the second. */
  function AndThen(a: Calls, b: Calls): Calls
  {
    if a.outcome.Raised? then a else Calls(a.sent + b.sent, b.state, b.outcome)
  }

  /**
   * The branch that initializes, from log position `n`: the initialize call;
   * the root token, then the first key, then the first base64 key kept, an
   * empty list raising after what came before was kept; a probe for the
   * printout; then the credentials file named by the date.
   */
  function InitServerRun(s: State, n: nat, answer: (nat, Request) -> Reply, shares: int, threshold: int,
                         today: Date, kept: Kept): (e: Ending)
    requires today.Valid()
    ensures e.outcome.Returned? ==> e.kept.keysBase64.Some?
  {
    var init := Initialize(shares, threshold);
    var result := answer(n, init);
    var after := After(s, init, result);
    if result.Fault? then Ending([init], after, kept, None, Raised(CallFailed(init)))
    else if result.body.NoBody? then Ending([init], after, kept, None, Raised(MalformedInit))
    else if result.body.keys == [] then
      Ending([init], after, kept.(token := Some(result.body.rootToken)), None, Raised(MalformedInit))
    else if result.body.keysBase64 == [] then
      Ending([init], after, kept.(token := Some(result.body.rootToken), keys := Some(result.body.keys[0])),
             None, Raised(MalformedInit))
    else
      var body := result.body;
      var full := Kept(Some(body.rootToken), Some(body.keys[0]), Some(body.keysBase64[0]));
      if answer(n + 1, IsInitialized).Fault? then
        Ending([init, IsInitialized], after, full, None, Raised(CallFailed(IsInitialized)))
      else
        Ending([init, IsInitialized], after, full,
               Some(CredentialsFile(CredentialsFilename(today), body.rootToken, body.keys[0], body.keysBase64[0])),
               Returned)
  }

  /**
   * The initialize half, from log position `n`: two probes (the first only
   * printed); an initialized server leaves the token and keys to the values
   * given from outside, empty when missing.
   */
  function InitStepRun(s: State, n: nat, answer: (nat, Request) -> Reply, shares: int, threshold: int,
                       external: External, today: Date, kept: Kept): (e: Ending)
    requires today.Valid()
    ensures e.outcome.Returned? ==> e.kept.keysBase64.Some?
  {
    if answer(n, IsInitialized).Fault? then
      Ending([IsInitialized], s, kept, None, Raised(CallFailed(IsInitialized)))
    else if answer(n + 1, IsInitialized).Fault? then
      Ending([IsInitialized, IsInitialized], s, kept, None, Raised(CallFailed(IsInitialized)))
    else if s.initialized then
      Ending([IsInitialized, IsInitialized], s,
             Kept(Some(OrEmpty(external.token)), Some(OrEmpty(external.keys)), Some(OrEmpty(external.keysBase64))),
             None, Returned)
    else
      var e := InitServerRun(s, n + 2, answer, shares, threshold, today, kept);
      e.(sent := [IsInitialized, IsInitialized] + e.sent)
  }

  /**
   * The unseal half, from log position `n`: two sealed probes (the first
   * only printed); a sealed server gets the one key in a one-element list,
   * then one more probe for the printout.
   */
  function UnsealRun(s: State, n: nat, answer: (nat, Request) -> Reply, key: string): Calls
  {
    if answer(n, IsSealed).Fault? then Calls([IsSealed], s, Raised(CallFailed(IsSealed)))
    else if answer(n + 1, IsSealed).Fault? then Calls([IsSealed, IsSealed], s, Raised(CallFailed(IsSealed)))
    else if !s.sealed then Calls([IsSealed, IsSealed], s, Returned)
    else
      var submit := SubmitUnsealKeys([key]);
      var after := After(s, submit, answer(n + 2, submit));
      if answer(n + 2, submit).Fault? then Calls([IsSealed, IsSealed, submit], after, Raised(CallFailed(submit)))
      else if answer(n + 3, IsSealed).Fault? then
        Calls([IsSealed, IsSealed, submit, IsSealed], after, Raised(CallFailed(IsSealed)))
      else Calls([IsSealed, IsSealed, submit, IsSealed], after, Returned)
  }

  /**
   * initialize_and_unseal_vault, from log position `n`: the initialize half,
   * then, unless it raised, the unseal half with the base64 key just kept.
   */
  function InitAndUnsealRun(s: State, n: nat, answer: (nat, Request) -> Reply, shares: int, threshold: int,
                            external: External, today: Date, kept: Kept): Ending
    requires today.Valid()
  {
    var i := InitStepRun(s, n, answer, shares, threshold, external, today, kept);
    if i.outcome.Raised? then i
    else
      var u := UnsealRun(i.state, n + |i.sent|, answer, i.kept.keysBase64.value);
      i.(sent := i.sent + u.sent, state := u.state, outcome := u.outcome)
  }

  /** The initialize half, when both probes completed on a server not initialized, is the branch that initializes. */
  lemma ProbedThenInit(s: State, n: nat, answer: (nat, Request) -> Reply, shares: int, threshold: int,
                       external: External, today: Date, kept: Kept, e: Ending)
    requires today.Valid() && !s.initialized
    requires answer(n, IsInitialized).Done? && answer(n + 1, IsInitialized).Done?
    requires e == InitServerRun(s, n + 2, answer, shares, threshold, today, kept)
    ensures InitStepRun(s, n, answer, shares, threshold, external, today, kept)
            == e.(sent := [IsInitialized, IsInitialized] + e.sent)
  {
  }

  /** initialize_and_unseal_vault is its initialize half, then, when that returned, its unseal half. */
  lemma InitThenUnseal(s: State, n: nat, answer: (nat, Request) -> Reply, shares: int, threshold: int,
                       external: External, today: Date, kept: Kept, i: Ending, u: Calls)
    requires today.Valid()
    requires i == InitStepRun(s, n, answer, shares, threshold, external, today, kept)
    requires i.outcome.Returned? ==> u == UnsealRun(i.state, n + |i.sent|, answer, i.kept.keysBase64.value)
    ensures InitAndUnsealRun(s, n, answer, shares, threshold, external, today, kept) == Joined(i, u)
  {
  }

  /** The run of both halves, given each half's own run: the first alone when it raised. */
  function Joined(i: Ending, u: Calls): Ending
  {
    if i.outcome.Raised? then i else Ending(i.sent + u.sent, u.state, i.kept, i.written, u.outcome)
  }

  /** Some call of `sent` initializes the server. */
  predicate Initializes(sent: seq<Request>)
  {
    exists j :: 0 <= j < |sent| && sent[j].Initialize?
  }

  /** Some call of `sent` submits unseal keys. */
  predicate Submits(sent: seq<Request>)
  {
    exists j :: 0 <= j < |sent| && sent[j].SubmitUnsealKeys?
  }

  /** Some call of `sent`, made from log position `n`, submitted unseal keys and completed with 200. */
  ghost predicate Unsealed(sent: seq<Request>, n: nat, answer: (nat, Request) -> Reply)
  {
    exists j :: 0 <= j < |sent| && sent[j].SubmitUnsealKeys? && answer(n + j, sent[j]).Done?
                && answer(n + j, sent[j]).status == 200
  }

  /** A part that returned, followed by another part of the same step. */
  lemma Then(log1: seq<Request>, log2: seq<Request>, n: nat, answer: (nat, Request) -> Reply,
             outcome: Outcome<Failure>, phase: nat)
    requires |log1| <= |log2| && log2[..|log1|] == log1
    requires StopsAtFailure(log1, n, answer, Returned) && InPhase(log1, n, phase)
    requires StopsAtFailure(log2, |log1|, answer, outcome) && InPhase(log2, |log1|, phase)
    ensures StopsAtFailure(log2, n, answer, outcome) && InPhase(log2, n, phase)
  {
    StopsCompose(log1, log2, n, answer, outcome);
    forall i | n <= i < |log1|
      ensures log2[i].Phase() == phase
    {
      assert log2[i] == log1[i];
    }
  }

  /** Two parts sent one after the other after `log`, the first of which returned. */
  lemma ThenParts(log: seq<Request>, first: seq<Request>, second: seq<Request>, answer: (nat, Request) -> Reply,
                  outcome: Outcome<Failure>, phase: nat)
    requires StopsAtFailure(log + first, |log|, answer, Returned) && InPhase(log + first, |log|, phase)
    requires StopsAtFailure(log + first + second, |log + first|, answer, outcome)
    requires InPhase(log + first + second, |log + first|, phase)
    ensures StopsAtFailure(log + (first + second), |log|, answer, outcome)
    ensures InPhase(log + (first + second), |log|, phase)
  {
    assert log + (first + second) == log + first + second;
    assert (log + first + second)[..|log + first|] == log + first;
    Then(log + first, log + first + second, |log|, answer, outcome, phase);
  }

  /** The branch that initializes, sent after `log`, stops at its first failure. */
  lemma InitServerStops(log: seq<Request>, s: State, answer: (nat, Request) -> Reply, shares: int, threshold: int,
                        today: Date, kept: Kept)
    requires today.Valid()
    ensures var e := InitServerRun(s, |log|, answer, shares, threshold, today, kept);
            e.sent != [] && StopsAtFailure(log + e.sent, |log|, answer, e.outcome) && InPhase(log + e.sent, |log|, 0)
  {
    var e := InitServerRun(s, |log|, answer, shares, threshold, today, kept);
    assert (log + e.sent)[|log|] == Initialize(shares, threshold);
  }

  /** Sending `r`, whose result does not raise, extends a part that went on. */
  lemma Sent(log: seq<Request>, n: nat, answer: (nat, Request) -> Reply, r: Request)
    requires StopsAtFailure(log, n, answer, Returned) && InPhase(log, n, r.Phase())
    requires Raises(r, answer(|log|, r)).None?
    ensures StopsAtFailure(log + [r], n, answer, Returned) && InPhase(log + [r], n, r.Phase())
  {
    assert forall i :: n <= i < |log| ==> (log + [r])[i] == log[i];
  }

  /** Sending `r`, whose result raises, ends a part that went on with that failure. */
  lemma SentAndRaised(log: seq<Request>, n: nat, answer: (nat, Request) -> Reply, r: Request)
    requires StopsAtFailure(log, n, answer, Returned) && InPhase(log, n, r.Phase())
    requires Raises(r, answer(|log|, r)).Some?
    ensures StopsAtFailure(log + [r], n, answer, Raised(Raises(r, answer(|log|, r)).value))
    ensures InPhase(log + [r], n, r.Phase())
  {
    assert forall i :: n <= i < |log| ==> (log + [r])[i] == log[i];
  }

  /** The two probes of the initialize half, sent after `log`. */
  lemma Probed(log: seq<Request>, answer: (nat, Request) -> Reply)
    ensures var n := |log|;
            answer(n, IsInitialized).Fault? ==>
              StopsAtFailure(log + [IsInitialized], n, answer, Raised(CallFailed(IsInitialized)))
              && InPhase(log + [IsInitialized], n, 0)
    ensures var n := |log|;
            var probed := log + [IsInitialized, IsInitialized];
            answer(n, IsInitialized).Done? ==>
              && StopsAtFailure(probed, n, answer, if answer(n + 1, IsInitialized).Fault? then Raised(CallFailed(IsInitialized)) else Returned)
              && InPhase(probed, n, 0)
  {
    var n := |log|;
    if answer(n, IsInitialized).Fault? {
      SentAndRaised(log, n, answer, IsInitialized);
    } else {
      Sent(log, n, answer, IsInitialized);
      assert log + [IsInitialized, IsInitialized] == log + [IsInitialized] + [IsInitialized];
      if answer(n + 1, IsInitialized).Fault? {
        SentAndRaised(log + [IsInitialized], n, answer, IsInitialized);
      } else {
        Sent(log + [IsInitialized], n, answer, IsInitialized);
      }
    }
  }

  /** The initialize half, sent after `log`, stops at its first failure. */
  lemma InitStepStops(log: seq<Request>, s: State, answer: (nat, Request) -> Reply, shares: int, threshold: int,
                      external: External, today: Date, kept: Kept)
    requires today.Valid()
    ensures var e := InitStepRun(s, |log|, answer, shares, threshold, external, today, kept);
            e.sent != [] && StopsAtFailure(log + e.sent, |log|, answer, e.outcome) && InPhase(log + e.sent, |log|, 0)
  {
    var n := |log|;
    Probed(log, answer);
    if answer(n, IsInitialized).Done? && answer(n + 1, IsInitialized).Done? && !s.initialized {
      var e := InitServerRun(s, n + 2, answer, shares, threshold, today, kept);
      InitServerStops(log + [IsInitialized, IsInitialized], s, answer, shares, threshold, today, kept);
      ThenParts(log, [IsInitialized, IsInitialized], e.sent, answer, e.outcome, 0);
    }
  }

  /** The unseal half, sent after `log`, stops at its first failure. */
  lemma UnsealStops(log: seq<Request>, s: State, answer: (nat, Request) -> Reply, key: string)
    ensures var u := UnsealRun(s, |log|, answer, key);
            u.sent != [] && StopsAtFailure(log + u.sent, |log|, answer, u.outcome) && InPhase(log + u.sent, |log|, 0)
  {
  }

  /** initialize_and_unseal_vault, sent after `log`, stops at its first failure and stays in step 0. */
  lemma InitAndUnsealStops(log: seq<Request>, s: State, answer: (nat, Request) -> Reply, shares: int, threshold: int,
                           external: External, today: Date, kept: Kept)
    requires today.Valid()
    ensures var e := InitAndUnsealRun(s, |log|, answer, shares, threshold, external, today, kept);
            e.sent != [] && StopsAtFailure(log + e.sent, |log|, answer, e.outcome) && InPhase(log + e.sent, |log|, 0)
  {
    var i := InitStepRun(s, |log|, answer, shares, threshold, external, today, kept);
    var e := InitAndUnsealRun(s, |log|, answer, shares, threshold, external, today, kept);
    InitStepStops(log, s, answer, shares, threshold, external, today, kept);
    if i.outcome.Returned? {
      var u := UnsealRun(i.state, |log + i.sent|, answer, i.kept.keysBase64.value);
      assert e.sent == i.sent + u.sent && e.outcome == u.outcome;
      UnsealStops(log + i.sent, i.state, answer, i.kept.keysBase64.value);
      ThenParts(log, i.sent, u.sent, answer, u.outcome, 0);
    } else {
      assert e == i;
    }
  }

  // ----- what initialize_and_unseal_vault promises -----

  /** A call of either part initializes the server exactly when one of the parts does. */
  lemma InitializesAppend(a: seq<Request>, b: seq<Request>)
    ensures Initializes(a + b) <==> Initializes(a) || Initializes(b)
  {
    if Initializes(a + b) {
      var j :| 0 <= j < |a + b| && (a + b)[j].Initialize?;
      if j >= |a| {
        assert b[j - |a|].Initialize?;
      }
    }
    if Initializes(b) {
      var j :| 0 <= j < |b| && b[j].Initialize?;
      assert (a + b)[|a| + j] == b[j];
    }
    if Initializes(a) {
      var j :| 0 <= j < |a| && a[j].Initialize?;
      assert (a + b)[j] == a[j];
    }
  }

  /** A call of either part submits unseal keys exactly when one of the parts does. */
  lemma SubmitsAppend(a: seq<Request>, b: seq<Request>)
    ensures Submits(a + b) <==> Submits(a) || Submits(b)
  {
    if Submits(a + b) {
      var j :| 0 <= j < |a + b| && (a + b)[j].SubmitUnsealKeys?;
      if j >= |a| {
        assert b[j - |a|].SubmitUnsealKeys?;
      }
    }
    if Submits(b) {
      var j :| 0 <= j < |b| && b[j].SubmitUnsealKeys?;
      assert (a + b)[|a| + j] == b[j];
    }
    if Submits(a) {
      var j :| 0 <= j < |a| && a[j].SubmitUnsealKeys?;
      assert (a + b)[j] == a[j];
    }
  }

  /** Two parts sent from position `n` unseal the server exactly when one of them does, at its own positions. */
  lemma UnsealedAppend(a: seq<Request>, b: seq<Request>, n: nat, answer: (nat, Request) -> Reply)
    ensures Unsealed(a + b, n, answer) <==> Unsealed(a, n, answer) || Unsealed(b, n + |a|, answer)
  {
    if Unsealed(a + b, n, answer) {
      var j :| 0 <= j < |a + b| && (a + b)[j].SubmitUnsealKeys? && answer(n + j, (a + b)[j]).Done?
               && answer(n + j, (a + b)[j]).status == 200;
      if j >= |a| {
        assert b[j - |a|] == (a + b)[j];
      } else {
        assert a[j] == (a + b)[j];
      }
    }
    if Unsealed(b, n + |a|, answer) {
      var j :| 0 <= j < |b| && b[j].SubmitUnsealKeys? && answer(n + |a| + j, b[j]).Done?
               && answer(n + |a| + j, b[j]).status == 200;
      assert (a + b)[|a| + j] == b[j];
    }
    if Unsealed(a, n, answer) {
      var j :| 0 <= j < |a| && a[j].SubmitUnsealKeys? && answer(n + j, a[j]).Done? && answer(n + j, a[j]).status == 200;
      assert (a + b)[j] == a[j];
    }
  }

  /** What the initialize half sends and changes: it never unseals, and it initializes right after the probes or not at all. */
  lemma InitStepSends(s: State, n: nat, answer: (nat, Request) -> Reply, shares: int, threshold: int,
                      external: External, today: Date, kept: Kept, i: Ending)
    requires today.Valid() && i == InitStepRun(s, n, answer, shares, threshold, external, today, kept)
    ensures var probed := answer(n, IsInitialized).Done? && answer(n + 1, IsInitialized).Done?;
            && (forall j :: 0 <= j < |i.sent| ==> !i.sent[j].SubmitUnsealKeys?)
            && (Initializes(i.sent) <==> probed && !s.initialized)
            && (Initializes(i.sent) ==> |i.sent| >= 3 && i.sent[..3] == [IsInitialized, IsInitialized, Initialize(shares, threshold)])
            && i.state == s.(initialized := s.initialized || (Initializes(i.sent) && answer(n + 2, Initialize(shares, threshold)).Done?))
  {
    if answer(n, IsInitialized).Done? && answer(n + 1, IsInitialized).Done? && !s.initialized {
      var e := InitServerRun(s, n + 2, answer, shares, threshold, today, kept);
      assert i.sent == [IsInitialized, IsInitialized] + e.sent;
      assert i.sent[2] == Initialize(shares, threshold);
    }
  }

  /** What the unseal half sends and changes: it never initializes, submits only `[key]`, and only when sealed. */
  lemma UnsealSends(s: State, n: nat, answer: (nat, Request) -> Reply, key: string, u: Calls)
    requires u == UnsealRun(s, n, answer, key)
    ensures && !Initializes(u.sent)
            && (Submits(u.sent) <==> answer(n, IsSealed).Done? && answer(n + 1, IsSealed).Done? && s.sealed)
            && (forall j :: 0 <= j < |u.sent| && u.sent[j].SubmitUnsealKeys? ==> u.sent[j] == SubmitUnsealKeys([key]))
            && u.state == s.(sealed := s.sealed && !Unsealed(u.sent, n, answer))
  {
    if answer(n, IsSealed).Done? && answer(n + 1, IsSealed).Done? && s.sealed {
      assert u.sent[2] == SubmitUnsealKeys([key]);
      if answer(n + 2, SubmitUnsealKeys([key])).Done? && answer(n + 2, SubmitUnsealKeys([key])).status == 200 {
        assert Unsealed(u.sent, n, answer) by {
          assert u.sent[2].SubmitUnsealKeys? && answer(n + 2, u.sent[2]).Done? && answer(n + 2, u.sent[2]).status == 200;
        }
      }
    }
  }

  /**
   * initialize is called exactly when both probes completed and the server
   * was not initialized, and then right after the probes.
   */
  lemma InitializesIffUninitialized(s: State, n: nat, answer: (nat, Request) -> Reply, shares: int, threshold: int,
                                    external: External, today: Date, kept: Kept)
    requires today.Valid()
    ensures var e := InitAndUnsealRun(s, n, answer, shares, threshold, external, today, kept);
            var probed := answer(n, IsInitialized).Done? && answer(n + 1, IsInitialized).Done?;
            && (Initializes(e.sent) <==> probed && !s.initialized)
            && (Initializes(e.sent) ==> |e.sent| >= 3 && e.sent[..3] == [IsInitialized, IsInitialized, Initialize(shares, threshold)])
  {
    var i := InitStepRun(s, n, answer, shares, threshold, external, today, kept);
    InitStepSends(s, n, answer, shares, threshold, external, today, kept, i);
    if i.outcome.Returned? {
      var u := UnsealRun(i.state, n + |i.sent|, answer, i.kept.keysBase64.value);
      InitThenUnseal(s, n, answer, shares, threshold, external, today, kept, i, u);
      UnsealSends(i.state, n + |i.sent|, answer, i.kept.keysBase64.value, u);
      InitializesAppend(i.sent, u.sent);
      if Initializes(i.sent) {
        assert (i.sent + u.sent)[..3] == i.sent[..3];
      }
    }
  }

  /**
   * submit_unseal_keys is called exactly when the initialize half returned,
   * both sealed probes completed and the server was sealed.
   */
  lemma UnsealsIffSealed(s: State, n: nat, answer: (nat, Request) -> Reply, shares: int, threshold: int,
                         external: External, today: Date, kept: Kept)
    requires today.Valid()
    ensures var i := InitStepRun(s, n, answer, shares, threshold, external, today, kept);
            var e := InitAndUnsealRun(s, n, answer, shares, threshold, external, today, kept);
            var m := n + |i.sent|;
            Submits(e.sent) <==> i.outcome.Returned? && answer(m, IsSealed).Done? && answer(m + 1, IsSealed).Done? && s.sealed
  {
    var i := InitStepRun(s, n, answer, shares, threshold, external, today, kept);
    var m := n + |i.sent|;
    var unsealing := answer(m, IsSealed).Done? && answer(m + 1, IsSealed).Done? && s.sealed;
    InitStepSends(s, n, answer, shares, threshold, external, today, kept, i);
    if i.outcome.Returned? {
      var u := UnsealRun(i.state, m, answer, i.kept.keysBase64.value);
      InitThenUnseal(s, n, answer, shares, threshold, external, today, kept, i, u);
      UnsealSends(i.state, m, answer, i.kept.keysBase64.value, u);
      assert i.state.sealed == s.sealed;
      SubmitsOfParts(i, u, unsealing);
    } else {
      InitThenUnseal(s, n, answer, shares, threshold, external, today, kept, i, Calls([], s, Returned));
      SubmitsOfParts(i, Calls([], s, Returned), unsealing);
    }
  }

  /** Only the second half submits keys. */
  lemma SubmitsOfParts(i: Ending, u: Calls, unsealing: bool)
    requires forall j :: 0 <= j < |i.sent| ==> !i.sent[j].SubmitUnsealKeys?
    requires i.outcome.Returned? ==> (Submits(u.sent) <==> unsealing)
    ensures Submits(Joined(i, u).sent) <==> i.outcome.Returned? && unsealing
  {
    if i.outcome.Returned? {
      SubmitsAppend(i.sent, u.sent);
    }
  }

  /** submit_unseal_keys is always called with the one base64 key kept, in a one-element list. */
  lemma UnsealsWithKeptKey(s: State, n: nat, answer: (nat, Request) -> Reply, shares: int, threshold: int,
                           external: External, today: Date, kept: Kept)
    requires today.Valid()
    ensures var e := InitAndUnsealRun(s, n, answer, shares, threshold, external, today, kept);
            forall j :: 0 <= j < |e.sent| && e.sent[j].SubmitUnsealKeys? ==>
              e.kept.keysBase64.Some? && e.sent[j] == SubmitUnsealKeys([e.kept.keysBase64.value])
  {
    var i := InitStepRun(s, n, answer, shares, threshold, external, today, kept);
    var m := n + |i.sent|;
    var u := if i.outcome.Returned? then UnsealRun(i.state, m, answer, i.kept.keysBase64.value) else Calls([], s, Returned);
    InitStepSends(s, n, answer, shares, threshold, external, today, kept, i);
    InitThenUnseal(s, n, answer, shares, threshold, external, today, kept, i, u);
    if i.outcome.Returned? {
      UnsealSends(i.state, m, answer, i.kept.keysBase64.value, u);
    }
    KeyOfParts(i, u);
  }

  /** The second half submits only the key the first kept. */
  lemma KeyOfParts(i: Ending, u: Calls)
    requires forall j :: 0 <= j < |i.sent| ==> !i.sent[j].SubmitUnsealKeys?
    requires i.outcome.Returned? ==>
               && i.kept.keysBase64.Some?
               && (forall j :: 0 <= j < |u.sent| && u.sent[j].SubmitUnsealKeys? ==> u.sent[j] == SubmitUnsealKeys([i.kept.keysBase64.value]))
    ensures var e := Joined(i, u);
            forall j :: 0 <= j < |e.sent| && e.sent[j].SubmitUnsealKeys? ==>
              e.kept.keysBase64.Some? && e.sent[j] == SubmitUnsealKeys([e.kept.keysBase64.value])
  {
    if i.outcome.Returned? {
      var e := i.sent + u.sent;
      assert forall j :: |i.sent| <= j < |e| ==> e[j] == u.sent[j - |i.sent|];
    }
  }

  /**
   * The token and keys kept: unchanged when a probe raised; the values given
   * from outside, empty when missing, when the server was initialized; the
   * root token, the first key and the first base64 key of the initialize
   * result when this run initialized it. The root token is kept even when a
   * key list turns out empty.
   */
  lemma KeptValues(s: State, n: nat, answer: (nat, Request) -> Reply, shares: int, threshold: int,
                   external: External, today: Date, kept: Kept)
    requires today.Valid()
    ensures var e := InitAndUnsealRun(s, n, answer, shares, threshold, external, today, kept);
            var probed := answer(n, IsInitialized).Done? && answer(n + 1, IsInitialized).Done?;
            var result := answer(n + 2, Initialize(shares, threshold));
            && (!probed ==> e.kept == kept)
            && (probed && s.initialized ==>
                  e.kept == Kept(Some(OrEmpty(external.token)), Some(OrEmpty(external.keys)), Some(OrEmpty(external.keysBase64))))
            && (probed && !s.initialized && result.Done? && result.body.InitBody? ==>
                  e.kept.token == Some(result.body.rootToken))
            && (probed && !s.initialized && Raises(Initialize(shares, threshold), result).None? ==>
                  e.kept == Kept(Some(result.body.rootToken), Some(result.body.keys[0]), Some(result.body.keysBase64[0])))
  {
    var i := InitStepRun(s, n, answer, shares, threshold, external, today, kept);
    if i.outcome.Returned? {
      var u := UnsealRun(i.state, n + |i.sent|, answer, i.kept.keysBase64.value);
      InitThenUnseal(s, n, answer, shares, threshold, external, today, kept, i, u);
    } else {
      InitThenUnseal(s, n, answer, shares, threshold, external, today, kept, i, Calls([], s, Returned));
    }
  }

  /**
   * The credentials file is written exactly when this run initialized the
   * server, the result held both key lists, and the probe after it
   * completed; it holds the token and keys kept, under the dated name.
   */
  lemma WrittenIffInitialized(s: State, n: nat, answer: (nat, Request) -> Reply, shares: int, threshold: int,
                              external: External, today: Date, kept: Kept)
    requires today.Valid()
    ensures var e := InitAndUnsealRun(s, n, answer, shares, threshold, external, today, kept);
            var init := Initialize(shares, threshold);
            && (e.written.Some? <==>
                  Initializes(e.sent) && Raises(init, answer(n + 2, init)).None? && answer(n + 3, IsInitialized).Done?)
            && (e.written.Some? ==>
                  && e.kept.token.Some? && e.kept.keys.Some? && e.kept.keysBase64.Some?
                  && e.written.value == CredentialsFile(CredentialsFilename(today), e.kept.token.value,
                                                        e.kept.keys.value, e.kept.keysBase64.value))
  {
    var i := InitStepRun(s, n, answer, shares, threshold, external, today, kept);
    InitializesIffUninitialized(s, n, answer, shares, threshold, external, today, kept);
    if i.outcome.Returned? {
      var u := UnsealRun(i.state, n + |i.sent|, answer, i.kept.keysBase64.value);
      InitThenUnseal(s, n, answer, shares, threshold, external, today, kept, i, u);
    } else {
      InitThenUnseal(s, n, answer, shares, threshold, external, today, kept, i, Calls([], s, Returned));
    }
  }

  /**
   * The run changes only whether the server is initialized and sealed: it
   * is initialized afterwards exactly when it was, or this run's initialize
   * completed; it is sealed afterwards exactly when it was and no
   * submission completed with 200.
   */
  lemma InitAndUnsealState(s: State, n: nat, answer: (nat, Request) -> Reply, shares: int, threshold: int,
                           external: External, today: Date, kept: Kept)
    requires today.Valid()
    ensures var e := InitAndUnsealRun(s, n, answer, shares, threshold, external, today, kept);
            e.state == s.(initialized := s.initialized || (Initializes(e.sent) && answer(n + 2, Initialize(shares, threshold)).Done?),
                          sealed := s.sealed && !Unsealed(e.sent, n, answer))
  {
    var i := InitStepRun(s, n, answer, shares, threshold, external, today, kept);
    var u := if i.outcome.Returned? then UnsealRun(i.state, n + |i.sent|, answer, i.kept.keysBase64.value) else Calls([], s, Returned);
    InitStepSends(s, n, answer, shares, threshold, external, today, kept, i);
    InitThenUnseal(s, n, answer, shares, threshold, external, today, kept, i, u);
    if i.outcome.Returned? {
      UnsealSends(i.state, n + |i.sent|, answer, i.kept.keysBase64.value, u);
    }
    StateOfParts(s, n, answer, Initialize(shares, threshold), i, u);
  }

  /** The state after the two halves, from what each half changes. */
  lemma StateOfParts(s: State, n: nat, answer: (nat, Request) -> Reply, init: Request, i: Ending, u: Calls)
    requires i.state == s.(initialized := s.initialized || (Initializes(i.sent) && answer(n + 2, init).Done?))
    requires forall j :: 0 <= j < |i.sent| ==> !i.sent[j].SubmitUnsealKeys?
    requires i.outcome.Returned? ==> u.state == i.state.(sealed := i.state.sealed && !Unsealed(u.sent, n + |i.sent|, answer))
    requires i.outcome.Returned? ==> !Initializes(u.sent)
    ensures var e := Joined(i, u);
            e.state == s.(initialized := s.initialized || (Initializes(e.sent) && answer(n + 2, init).Done?),
                          sealed := s.sealed && !Unsealed(e.sent, n, answer))
  {
    assert !Unsealed(i.sent, n, answer);
    if i.outcome.Returned? {
      UnsealedAppend(i.sent, u.sent, n, answer);
      InitializesAppend(i.sent, u.sent);
    }
  }

  /**
   * On a server already initialized and unsealed, a run whose probes
   * complete only probes: it changes nothing on the server and writes no
   * file.
   */
  lemma RerunOnlyProbes(s: State, n: nat, answer: (nat, Request) -> Reply, shares: int, threshold: int,
                        external: External, today: Date, kept: Kept)
    requires today.Valid() && s.initialized && !s.sealed
    requires answer(n, IsInitialized).Done? && answer(n + 1, IsInitialized).Done?
    requires answer(n + 2, IsSealed).Done? && answer(n + 3, IsSealed).Done?
    ensures var e := InitAndUnsealRun(s, n, answer, shares, threshold, external, today, kept);
            && e.sent == [IsInitialized, IsInitialized, IsSealed, IsSealed]
            && e.state == s && e.written == None && e.outcome == Returned
  {
    var i := InitStepRun(s, n, answer, shares, threshold, external, today, kept);
    var u := UnsealRun(i.state, n + |i.sent|, answer, i.kept.keysBase64.value);
    InitThenUnseal(s, n, answer, shares, threshold, external, today, kept, i, u);
  }

  /** The usernames a listing of the mount returns. */
  function Usernames(users: map<UserKey, UserEntry>, mount: string): set<string>
  {
    set key | key in users && key.mount == mount :: key.username
  }

  /** `t` has both flags of `s` and every entry of `s` unchanged, the user entry at `key` aside. */
  ghost predicate Keeps(s: State, t: State, key: UserKey)
  {
    && t.initialized == s.initialized && t.sealed == s.sealed
    && (forall p :: p in s.engines ==> p in t.engines && t.engines[p] == s.engines[p])
    && (forall p :: p in s.policies ==> p in t.policies && t.policies[p] == s.policies[p])
    && (forall p :: p in s.authMethods ==> p in t.authMethods && t.authMethods[p] == s.authMethods[p])
    && (forall k :: k in s.users && k != key ==> k in t.users && t.users[k] == s.users[k])
  }

  lemma KeepsTransitive(s: State, t: State, u: State, key: UserKey)
    requires Keeps(s, t, key) && Keeps(t, u, key)
    ensures Keeps(s, u, key)
  {
  }

  /**
   * The check-then-create steps of VaultClient, from log position `n`: a
   * listing that raises propagates; otherwise `create` is sent exactly when
   * the listing does not show the entity (`listed`), and what it raises
   * propagates.
   */
  function ListThenCreate(s: State, n: nat, answer: (nat, Request) -> Reply, list: Request, create: Request,
                          listed: bool): Calls
  {
    if answer(n, list).Fault? then Calls([list], s, Raised(CallFailed(list)))
    else if listed then Calls([list], s, Returned)
    else
      var reply := answer(n + 1, create);
      Calls([list, create], After(s, create, reply), if reply.Fault? then Raised(CallFailed(create)) else Returned)
  }

  /** create_secret_engine: the engine is enabled when no engine is mounted at `name` + "/". */
  function EngineCalls(s: State, n: nat, answer: (nat, Request) -> Reply, name: string, backendType: string): Calls
  {
    ListThenCreate(s, n, answer, ListEngines, EnableEngine(name, backendType, name + " secrets engine"),
                   name + "/" in s.engines)
  }

  /** create_policy: the policy is written when no policy has the name. */
  function PolicyCalls(s: State, n: nat, answer: (nat, Request) -> Reply, name: string, policy: string): Calls
  {
    ListThenCreate(s, n, answer, ListPolicies, WritePolicy(name, policy), name in s.policies)
  }

  /** create_auth_method: a userpass method is enabled when nothing is mounted at `name` + "/". */
  function AuthCalls(s: State, n: nat, answer: (nat, Request) -> Reply, name: string): Calls
  {
    ListThenCreate(s, n, answer, ListAuthMethods, EnableAuth(name, "userpass"), name + "/" in s.authMethods)
  }

  /**
   * create_user, from log position `n`: the listing and a first write sit
   * inside a `try`. A listing that names the user means no write; a listing
   * that raises means one write, from the `except` branch; a first write
   * that raises is caught and made once more. Only the last write counts for
   * the server, and only a write from the `except` branch can raise out.
   */
  function UserCalls(s: State, n: nat, answer: (nat, Request) -> Reply,
                     username: string, password: string, policyName: string, mount: string): Calls
  {
    var list := ListUsers(mount);
    var write := WriteUser(username, password, policyName, mount);
    if answer(n, list).Done? && username in Usernames(s.users, mount) then Calls([list], s, Returned)
    else if answer(n, list).Fault? || answer(n + 1, write).Done? then
      Calls([list, write], After(s, write, answer(n + 1, write)),
            if answer(n + 1, write).Fault? then Raised(CallFailed(write)) else Returned)
    else
      Calls([list, write, write], After(s, write, answer(n + 2, write)),
            if answer(n + 2, write).Fault? then Raised(CallFailed(write)) else Returned)
  }

  /** A check-then-create step, sent after `log`, makes one or two calls of the listing's step and stops at its first failure. */
  lemma ListThenCreateStops(log: seq<Request>, s: State, answer: (nat, Request) -> Reply, list: Request, create: Request,
                            listed: bool)
    requires !list.Initialize? && !create.Initialize? && create.Phase() == list.Phase()
    ensures var c := ListThenCreate(s, |log|, answer, list, create, listed);
            c.sent != [] && StopsAtFailure(log + c.sent, |log|, answer, c.outcome) && InPhase(log + c.sent, |log|, list.Phase())
  {
    var c := ListThenCreate(s, |log|, answer, list, create, listed);
    assert (log + c.sent)[|log|] == list;
  }

  /** create_user, sent after `log`, makes only step-4 calls and stops at the first failure it does not catch. */
  lemma UserCallsStops(log: seq<Request>, s: State, answer: (nat, Request) -> Reply,
                       username: string, password: string, policyName: string, mount: string)
    ensures var c := UserCalls(s, |log|, answer, username, password, policyName, mount);
            c.sent != [] && StopsAtFailure(log + c.sent, |log|, answer, c.outcome) && InPhase(log + c.sent, |log|, 4)
  {
    var c := UserCalls(s, |log|, answer, username, password, policyName, mount);
    var all := log + c.sent;
    assert all[|log|] == ListUsers(mount);
    if |c.sent| > 1 {
      assert all[|log| + 1] == WriteUser(username, password, policyName, mount);
    }
    if |c.sent| > 2 {
      assert all[|log| + 2] == WriteUser(username, password, policyName, mount);
    }
  }

  /**
   * A call of configure_vault keeps every entry: it creates an engine, a
   * policy or an auth method only where there is none yet, and writes no
   * user but the one at `key`.
   */
  lemma AfterKeeps(s: State, r: Request, reply: Reply, key: UserKey)
    requires r.Phase() > 0
    requires r.EnableEngine? ==> r.path + "/" !in s.engines
    requires r.WritePolicy? ==> r.name !in s.policies
    requires r.EnableAuth? ==> r.authPath + "/" !in s.authMethods
    requires r.WriteUser? ==> UserKey(r.mountPoint, r.username) == key
    ensures Keeps(s, After(s, r, reply), key)
  {
    match r
    case EnableEngine(path, backendType, _) =>
      assert After(s, r, reply) == s || After(s, r, reply) == s.(engines := s.engines[path + "/" := backendType]);
    case WritePolicy(name, policy) =>
      assert After(s, r, reply) == s || After(s, r, reply) == s.(policies := s.policies[name := policy]);
    case EnableAuth(path, methodType) =>
      assert After(s, r, reply) == s || After(s, r, reply) == s.(authMethods := s.authMethods[path + "/" := methodType]);
    case WriteUser(username, password, policies, mount) =>
      assert After(s, r, reply) == s || After(s, r, reply) == s.(users := s.users[key := UserEntry(password, policies)]);
    case _ =>
  }

  /** A check-then-create step leaves the state as it was, or as `create` left it after a listing that completed without the entity. */
  lemma ListThenCreateState(s: State, n: nat, answer: (nat, Request) -> Reply, list: Request, create: Request,
                            listed: bool)
    ensures var c := ListThenCreate(s, n, answer, list, create, listed);
            || c.state == s
            || (!listed && answer(n, list).Done? && c.state == After(s, create, answer(n + 1, create)))
    ensures answer(n, list).Done? && answer(n + 1, create) == Done(204, NoBody) ==>
              var c := ListThenCreate(s, n, answer, list, create, listed);
              c.outcome == Returned && c.state == if listed then s else After(s, create, Done(204, NoBody))
  {
  }

  /**
   * create_secret_engine keeps every entry, adding an engine only at a free
   * path; when the server completes every call with 204, it returns with the
   * engine mounted.
   */
  lemma EngineCallsKeep(s: State, n: nat, answer: (nat, Request) -> Reply, name: string, backendType: string,
                        key: UserKey)
    ensures var c := EngineCalls(s, n, answer, name, backendType);
            && Keeps(s, c.state, key)
            && ((forall i, q :: answer(i, q) == Done(204, NoBody)) ==> c.outcome == Returned && name + "/" in c.state.engines)
  {
    var enable := EnableEngine(name, backendType, name + " secrets engine");
    var listed := name + "/" in s.engines;
    ListThenCreateState(s, n, answer, ListEngines, enable, listed);
    if !listed {
      AfterKeeps(s, enable, answer(n + 1, enable), key);
    }
  }

  /**
   * create_policy keeps every entry, writing a policy only under a free
   * name; when the server completes every call with 204, it returns with the
   * policy present.
   */
  lemma PolicyCallsKeep(s: State, n: nat, answer: (nat, Request) -> Reply, name: string, policy: string, key: UserKey)
    ensures var c := PolicyCalls(s, n, answer, name, policy);
            && Keeps(s, c.state, key)
            && ((forall i, q :: answer(i, q) == Done(204, NoBody)) ==> c.outcome == Returned && name in c.state.policies)
  {
    var write := WritePolicy(name, policy);
    ListThenCreateState(s, n, answer, ListPolicies, write, name in s.policies);
    if name !in s.policies {
      AfterKeeps(s, write, answer(n + 1, write), key);
    }
  }

  /**
   * create_auth_method keeps every entry, enabling a method only at a free
   * path; when the server completes every call with 204, it returns with the
   * method mounted.
   */
  lemma AuthCallsKeep(s: State, n: nat, answer: (nat, Request) -> Reply, name: string, key: UserKey)
    ensures var c := AuthCalls(s, n, answer, name);
            && Keeps(s, c.state, key)
            && ((forall i, q :: answer(i, q) == Done(204, NoBody)) ==> c.outcome == Returned && name + "/" in c.state.authMethods)
  {
    var enable := EnableAuth(name, "userpass");
    var listed := name + "/" in s.authMethods;
    ListThenCreateState(s, n, answer, ListAuthMethods, enable, listed);
    if !listed {
      AfterKeeps(s, enable, answer(n + 1, enable), key);
    }
  }

  /** create_user leaves the state as it was, or as the last of its writes left it. */
  lemma UserCallsState(s: State, n: nat, answer: (nat, Request) -> Reply,
                       username: string, password: string, policyName: string, mount: string)
    ensures var c := UserCalls(s, n, answer, username, password, policyName, mount);
            var write := WriteUser(username, password, policyName, mount);
            || c.state == s
            || c.state == After(s, write, answer(n + 1, write))
            || c.state == After(s, write, answer(n + 2, write))
    ensures answer(n, ListUsers(mount)).Done? && answer(n + 1, WriteUser(username, password, policyName, mount)) == Done(204, NoBody) ==>
              var c := UserCalls(s, n, answer, username, password, policyName, mount);
              && c.outcome == Returned
              && (c.state == s || c.state == After(s, WriteUser(username, password, policyName, mount), Done(204, NoBody)))
              && (c.state == s ==> username in Usernames(s.users, mount))
  {
  }

  /**
   * create_user writes no entry but its own user's; when the server
   * completes every call with 204, it returns with the user listed.
   */
  lemma UserCallsKeep(s: State, n: nat, answer: (nat, Request) -> Reply,
                      username: string, password: string, policyName: string, mount: string)
    ensures var c := UserCalls(s, n, answer, username, password, policyName, mount);
            && Keeps(s, c.state, UserKey(mount, username))
            && ((forall i, q :: answer(i, q) == Done(204, NoBody)) ==>
                  c.outcome == Returned && username in Usernames(c.state.users, mount))
  {
    var c := UserCalls(s, n, answer, username, password, policyName, mount);
    var write := WriteUser(username, password, policyName, mount);
    var key := UserKey(mount, username);
    UserCallsState(s, n, answer, username, password, policyName, mount);
    AfterKeeps(s, write, answer(n + 1, write), key);
    AfterKeeps(s, write, answer(n + 2, write), key);
    if forall i, q :: answer(i, q) == Done(204, NoBody) {
      if c.state != s {
        assert key in c.state.users && key.mount == mount;
      }
    }
  }

  /**
   * Four parts run one after the other after `log0`, each sent only when the
   * one before returned, leave the log, the state and the outcome of their
   * chain.
   */
  lemma Chained(log0: seq<Request>, log: seq<Request>, s: State, outcome: Outcome<Failure>,
                c1: Calls, c2: Calls, c3: Calls, c4: Calls)
    requires c1.outcome.Raised? ==> log == log0 + c1.sent && s == c1.state && outcome == c1.outcome
    requires c1.outcome.Returned? && c2.outcome.Raised? ==>
               log == log0 + c1.sent + c2.sent && s == c2.state && outcome == c2.outcome
    requires c1.outcome.Returned? && c2.outcome.Returned? && c3.outcome.Raised? ==>
               log == log0 + c1.sent + c2.sent + c3.sent && s == c3.state && outcome == c3.outcome
    requires c1.outcome.Returned? && c2.outcome.Returned? && c3.outcome.Returned? ==>
               log == log0 + c1.sent + c2.sent + c3.sent + c4.sent && s == c4.state && outcome == c4.outcome
    ensures var r := AndThen(c1, AndThen(c2, AndThen(c3, c4)));
            log == log0 + r.sent && s == r.state && outcome == r.outcome
  {
    Associative(log0, c1.sent, c2.sent);
    Associative(log0 + c1.sent, c2.sent, c3.sent);
    Associative(log0, c1.sent, c2.sent + c3.sent);
    Associative(log0 + c1.sent + c2.sent, c3.sent, c4.sent);
    Associative(log0 + c1.sent, c2.sent, c3.sent + c4.sent);
    Associative(log0, c1.sent, c2.sent + (c3.sent + c4.sent));
  }

  /** VaultClient: a client authenticated with a token, and the four check-then-create steps. */
  class VaultClient {
    const url: string
    const token: Option<string>

    constructor (url: string, token: Option<string>)
      ensures this.url == url && this.token == token
    {
      this.url := url;
      this.token := token;
    }

    /**
     * create_secret_engine: a listing that raises propagates; otherwise the
     * engine is enabled exactly when no mounted engine is at `name` + "/".
     */
    method CreateSecretEngine(server: Server, answer: (nat, Request) -> Reply, name: string, backendType: string)
      returns (outcome: Outcome<Failure>)
      modifies server
      ensures var c := EngineCalls(old(server.state), |old(server.log)|, answer, name, backendType);
              server.log == old(server.log) + c.sent && server.state == c.state && outcome == c.outcome
      ensures InPhase(server.log, |old(server.log)|, 1)
      ensures StopsAtFailure(server.log, |old(server.log)|, answer, outcome)
    {
      ghost var log0, s0 := server.log, server.state;
      var enable := EnableEngine(name, backendType, name + " secrets engine");
      var reply := server.Send(ListEngines, answer);
      if reply.Fault? {
        outcome := Raised(CallFailed(ListEngines));
      } else if name + "/" !in server.state.engines {
        reply := server.Send(enable, answer);
        outcome := if reply.Fault? then Raised(CallFailed(enable)) else Returned;
      } else {
        outcome := Returned;
      }
      ListThenCreateStops(log0, s0, answer, ListEngines, enable, name + "/" in s0.engines);
    }

    /**
     * create_policy: a listing that raises propagates; otherwise the policy
     * is written exactly when no policy has the name.
     */
    method CreatePolicy(server: Server, answer: (nat, Request) -> Reply, name: string, policy: string)
      returns (outcome: Outcome<Failure>)
      modifies server
      ensures var c := PolicyCalls(old(server.state), |old(server.log)|, answer, name, policy);
              server.log == old(server.log) + c.sent && server.state == c.state && outcome == c.outcome
      ensures InPhase(server.log, |old(server.log)|, 2)
      ensures StopsAtFailure(server.log, |old(server.log)|, answer, outcome)
    {
      ghost var log0, s0 := server.log, server.state;
      var write := WritePolicy(name, policy);
      var reply := server.Send(ListPolicies, answer);
      if reply.Fault? {
        outcome := Raised(CallFailed(ListPolicies));
      } else if name !in server.state.policies {
        reply := server.Send(write, answer);
        outcome := if reply.Fault? then Raised(CallFailed(write)) else Returned;
      } else {
        outcome := Returned;
      }
      ListThenCreateStops(log0, s0, answer, ListPolicies, write, name in s0.policies);
    }

    /**
     * create_auth_method: a listing that raises propagates; otherwise a
     * userpass method is enabled exactly when nothing is mounted at
     * `name` + "/".
     */
    method CreateAuthMethod(server: Server, answer: (nat, Request) -> Reply, name: string)
      returns (outcome: Outcome<Failure>)
      modifies server
      ensures var c := AuthCalls(old(server.state), |old(server.log)|, answer, name);
              server.log == old(server.log) + c.sent && server.state == c.state && outcome == c.outcome
      ensures InPhase(server.log, |old(server.log)|, 3)
      ensures StopsAtFailure(server.log, |old(server.log)|, answer, outcome)
    {
      ghost var log0, s0 := server.log, server.state;
      var enable := EnableAuth(name, "userpass");
      var reply := server.Send(ListAuthMethods, answer);
      if reply.Fault? {
        outcome := Raised(CallFailed(ListAuthMethods));
      } else if name + "/" !in server.state.authMethods {
        reply := server.Send(enable, answer);
        outcome := if reply.Fault? then Raised(CallFailed(enable)) else Returned;
      } else {
        outcome := Returned;
      }
      ListThenCreateStops(log0, s0, answer, ListAuthMethods, enable, name + "/" in s0.authMethods);
    }

    /**
     * create_user: the listing and a first write sit inside a `try`. A listing
     * that names the user means no write; a listing that raises means one
     * write, from the `except` branch; a first write that raises is caught
     * and made once more. Only a write made from the `except` branch can
     * raise out of the step.
     */
    method CreateUser(server: Server, answer: (nat, Request) -> Reply,
                      username: string, password: string, policyName: string, authMethodName: string)
      returns (outcome: Outcome<Failure>)
      modifies server
      ensures var c := UserCalls(old(server.state), |old(server.log)|, answer, username, password, policyName, authMethodName);
              server.log == old(server.log) + c.sent && server.state == c.state && outcome == c.outcome
      ensures InPhase(server.log, |old(server.log)|, 4)
      ensures StopsAtFailure(server.log, |old(server.log)|, answer, outcome)
    {
      ghost var log0, s0 := server.log, server.state;
      var list := ListUsers(authMethodName);
      var write := WriteUser(username, password, policyName, authMethodName);
      var reply := server.Send(list, answer);
      if reply.Done? && username in Usernames(server.state.users, authMethodName) {
        outcome := Returned;
      } else {
        if reply.Done? {
          reply := server.Send(write, answer);
        }
        if reply.Fault? {
          // the except branch
          reply := server.Send(write, answer);
        }
        outcome := if reply.Fault? then Raised(CallFailed(write)) else Returned;
      }
      UserCallsStops(log0, s0, answer, username, password, policyName, authMethodName);
    }
  }

  /** VaultConfig: the settings, and the root token and unseal keys once known. */
  class VaultConfig {
    const url: string
    const shares: int
    const threshold: int
    const secretEngineName: string
    const policyName: string
    const authMethodName: string
    const userName: string
    const password: string
    var token: Option<string>
    var keys: Option<string>
    var keysBase64: Option<string>

    constructor (url: string, shares: int, threshold: int, secretEngineName: string, policyName: string,
                 authMethodName: string, userName: string, password: string)
      ensures this.url == url && this.shares == shares && this.threshold == threshold
      ensures this.secretEngineName == secretEngineName && this.policyName == policyName
      ensures this.authMethodName == authMethodName && this.userName == userName && this.password == password
      ensures token == None && keys == None && keysBase64 == None
    {
      this.url := url;
      this.shares := shares;
      this.threshold := threshold;
      this.secretEngineName := secretEngineName;
      this.policyName := policyName;
      this.authMethodName := authMethodName;
      this.userName := userName;
      this.password := password;
      token := None;
      keys := None;
      keysBase64 := None;
    }

    /** get_policy, for the configured engine. */
    function GetPolicy(): string
    {
      PolicyText(secretEngineName)
    }

    /** The token and keys held now. */
    function Holds(): Kept
      reads this
    {
      Kept(token, keys, keysBase64)
    }

    /**
     * The branch of initialize_and_unseal_vault that initializes: the
     * initialize call, the root token and first key of each list kept in
     * that order (an empty list raises after what came before was kept), a
     * probe for the printout, and the credentials file named by the date.
     */
    method InitializeServer(server: Server, answer: (nat, Request) -> Reply, today: Date)
      returns (outcome: Outcome<Failure>, written: Option<CredentialsFile>)
      requires today.Valid()
      modifies this, server
      ensures var e := InitServerRun(old(server.state), |old(server.log)|, answer, shares, threshold, today, old(Holds()));
              && server.log == old(server.log) + e.sent && server.state == e.state
              && Holds() == e.kept && written == e.written && outcome == e.outcome
    {
      var init := Initialize(shares, threshold);
      var reply := server.Send(init, answer);
      if reply.Fault? || reply.body.NoBody? {
        return Raised(Raises(init, reply).value), None;
      }
      token := Some(reply.body.rootToken);
      if reply.body.keys == [] {
        return Raised(MalformedInit), None;
      }
      keys := Some(reply.body.keys[0]);
      if reply.body.keysBase64 == [] {
        return Raised(MalformedInit), None;
      }
      keysBase64 := Some(reply.body.keysBase64[0]);
      var probe := server.Send(IsInitialized, answer);
      if probe.Fault? {
        return Raised(CallFailed(IsInitialized)), None;
      }
      written := Some(CredentialsFile(CredentialsFilename(today), token.value, keys.value, keysBase64.value));
      outcome := Returned;
    }

    /**
     * The initialize half of initialize_and_unseal_vault: two probes (the
     * first only printed); an initialized server leaves the token and keys
     * to the values given from outside, empty when missing.
     */
    method InitializeStep(server: Server, answer: (nat, Request) -> Reply, external: External, today: Date)
      returns (outcome: Outcome<Failure>, written: Option<CredentialsFile>)
      requires today.Valid()
      modifies this, server
      ensures var e := InitStepRun(old(server.state), |old(server.log)|, answer, shares, threshold, external, today,
                                   old(Holds()));
              && server.log == old(server.log) + e.sent && server.state == e.state
              && Holds() == e.kept && written == e.written && outcome == e.outcome
    {
      written := None;
      var reply := server.Send(IsInitialized, answer);
      if reply.Fault? {
        outcome := Raised(CallFailed(IsInitialized));
      } else {
        reply := server.Send(IsInitialized, answer);
        if reply.Fault? {
          outcome := Raised(CallFailed(IsInitialized));
        } else if !server.state.initialized {
          ghost var log0, s0, k0 := old(server.log), old(server.state), old(Holds());
          assert server.log == log0 + [IsInitialized, IsInitialized] && server.state == s0 && Holds() == k0;
          ghost var e := InitServerRun(server.state, |server.log|, answer, shares, threshold, today, Holds());
          assert |server.log| == |log0| + 2;
          outcome, written := InitializeServer(server, answer, today);
          Associative(log0, [IsInitialized, IsInitialized], e.sent);
          ProbedThenInit(s0, |log0|, answer, shares, threshold, external, today, k0, e);
        } else {
          token := Some(OrEmpty(external.token));
          keys := Some(OrEmpty(external.keys));
          keysBase64 := Some(OrEmpty(external.keysBase64));
          outcome := Returned;
        }
      }
    }

    /**
     * The unseal half of initialize_and_unseal_vault: two sealed probes (the
     * first only printed); when sealed, submit the one key in a one-element
     * list and probe once more for the printout.
     */
    method UnsealStep(server: Server, answer: (nat, Request) -> Reply, key: string) returns (outcome: Outcome<Failure>)
      modifies server
      ensures var u := UnsealRun(old(server.state), |old(server.log)|, answer, key);
              server.log == old(server.log) + u.sent && server.state == u.state && outcome == u.outcome
    {
      var reply := server.Send(IsSealed, answer);
      if reply.Fault? {
        return Raised(CallFailed(IsSealed));
      }
      reply := server.Send(IsSealed, answer);
      if reply.Fault? {
        return Raised(CallFailed(IsSealed));
      }
      if server.state.sealed {
        var submit := SubmitUnsealKeys([key]);
        reply := server.Send(submit, answer);
        if reply.Fault? {
          return Raised(CallFailed(submit));
        }
        reply := server.Send(IsSealed, answer);
        if reply.Fault? {
          return Raised(CallFailed(IsSealed));
        }
      }
      outcome := Returned;
    }

    /**
     * initialize_and_unseal_vault: initialize when needed, then unseal with
     * the base64 key just kept; an exception from the first half keeps the
     * second from running.
     */
    method InitializeAndUnseal(server: Server, answer: (nat, Request) -> Reply, external: External, today: Date)
      returns (outcome: Outcome<Failure>, written: Option<CredentialsFile>)
      requires today.Valid()
      modifies this, server
      ensures var e := InitAndUnsealRun(old(server.state), |old(server.log)|, answer, shares, threshold, external, today,
                                        old(Holds()));
              && server.log == old(server.log) + e.sent && server.state == e.state
              && Holds() == e.kept && written == e.written && outcome == e.outcome
      ensures |server.log| > |old(server.log)|
      ensures StopsAtFailure(server.log, |old(server.log)|, answer, outcome)
      ensures InPhase(server.log, |old(server.log)|, 0)
    {
      InitAndUnsealStops(server.log, server.state, answer, shares, threshold, external, today, Holds());
      ghost var log0, s0, k0 := server.log, server.state, Holds();
      ghost var i := InitStepRun(s0, |log0|, answer, shares, threshold, external, today, k0);
      outcome, written := InitializeStep(server, answer, external, today);
      if outcome.Raised? {
        InitThenUnseal(s0, |log0|, answer, shares, threshold, external, today, k0, i, Calls([], s0, Returned));
      } else {
        assert server.log == log0 + i.sent && server.state == i.state && keysBase64 == i.kept.keysBase64;
        ghost var u := UnsealRun(server.state, |server.log|, answer, keysBase64.value);
        assert |server.log| == |log0| + |i.sent|;
        outcome := UnsealStep(server, answer, keysBase64.value);
        Associative(log0, i.sent, u.sent);
        InitThenUnseal(s0, |log0|, answer, shares, threshold, external, today, k0, i, u);
      }
    }

    /** The requests configure_vault may make, with the payloads the settings fix. */
    predicate Configured(r: Request)
    {
      match r
      case ListEngines => true
      case EnableEngine(path, backendType, description) =>
        path == secretEngineName && backendType == "kv" && description == secretEngineName + " secrets engine"
      case ListPolicies => true
      case WritePolicy(name, policy) => name == policyName && policy == GetPolicy()
      case ListAuthMethods => true
      case EnableAuth(path, methodType) => path == authMethodName && methodType == "userpass"
      case ListUsers(mount) => mount == authMethodName
      case WriteUser(username, userPassword, policies, mount) =>
        username == userName && userPassword == password && policies == policyName && mount == authMethodName
      case _ => false
    }

    /** Every request of `log` from position `n` on is one configure_vault may make. */
    ghost predicate AllConfigured(log: seq<Request>, n: nat)
    {
      forall i :: n <= i < |log| ==> Configured(log[i])
    }

    /**
     * configure_vault, sent after `log`: the engine, policy, auth method and
     * user steps with the configured arguments, each on the server and at
     * the log position the one before left, until one raises.
     */
    function ConfigureRun(s: State, log: seq<Request>, answer: (nat, Request) -> Reply): Calls
    {
      var c1 := EngineCalls(s, |log|, answer, secretEngineName, "kv");
      var c2 := PolicyCalls(c1.state, |log + c1.sent|, answer, policyName, GetPolicy());
      var c3 := AuthCalls(c2.state, |log + c1.sent + c2.sent|, answer, authMethodName);
      var c4 := UserCalls(c3.state, |log + c1.sent + c2.sent + c3.sent|, answer, userName, password, policyName,
                          authMethodName);
      AndThen(c1, AndThen(c2, AndThen(c3, c4)))
    }

    /**
     * configure_vault: a client with the kept token makes sure of the kv
     * engine, the policy over it, the userpass method and the user bound to
     * the policy at that mount, in that order; an exception ends the run.
     */
    method ConfigureVault(server: Server, answer: (nat, Request) -> Reply)
      returns (client: VaultClient, outcome: Outcome<Failure>)
      modifies server
      ensures fresh(client) && client.url == url && client.token == token
      ensures var r := ConfigureRun(old(server.state), old(server.log), answer);
              server.log == old(server.log) + r.sent && server.state == r.state && outcome == r.outcome
    {
      ghost var log0, s0 := server.log, server.state;
      ghost var c1 := EngineCalls(s0, |log0|, answer, secretEngineName, "kv");
      ghost var c2 := PolicyCalls(c1.state, |log0 + c1.sent|, answer, policyName, GetPolicy());
      ghost var c3 := AuthCalls(c2.state, |log0 + c1.sent + c2.sent|, answer, authMethodName);
      ghost var c4 := UserCalls(c3.state, |log0 + c1.sent + c2.sent + c3.sent|, answer, userName, password, policyName,
                                authMethodName);
      client := new VaultClient(url, token);
      outcome := client.CreateSecretEngine(server, answer, secretEngineName, "kv");
      if outcome.Returned? {
        outcome := client.CreatePolicy(server, answer, policyName, GetPolicy());
        if outcome.Returned? {
          outcome := client.CreateAuthMethod(server, answer, authMethodName);
          if outcome.Returned? {
            outcome := client.CreateUser(server, answer, userName, password, policyName, authMethodName);
          }
        }
      }
      Chained(log0, server.log, server.state, outcome, c1, c2, c3, c4);
    }

    /** The calls of `sent`, after `log`, are all configured ones. */
    lemma SentConfigured(log: seq<Request>, sent: seq<Request>)
      requires forall j :: 0 <= j < |sent| ==> Configured(sent[j])
      ensures AllConfigured(log + sent, |log|)
    {
      forall i | |log| <= i < |log + sent|
        ensures Configured((log + sent)[i])
      {
        assert (log + sent)[i] == sent[i - |log|];
      }
    }

    /** From position `n` on, `log` holds configured calls of one step, and stops at its first failure. */
    ghost predicate StepOrderly(log: seq<Request>, n: nat, answer: (nat, Request) -> Reply, outcome: Outcome<Failure>,
                                phase: nat)
    {
      && n < |log| && StopsAtFailure(log, n, answer, outcome) && AllConfigured(log, n) && InPhase(log, n, phase)
    }

    /**
     * From position `n` on, `log` holds configured calls of steps `phase` to
     * 4, never going back, and stops at its first failure; a normal return
     * means each of those steps made a call.
     */
    ghost predicate Orderly(log: seq<Request>, n: nat, answer: (nat, Request) -> Reply, outcome: Outcome<Failure>,
                            phase: nat)
    {
      && n < |log| && StopsAtFailure(log, n, answer, outcome) && AllConfigured(log, n)
      && PhasesAscend(log, n) && PhasesFrom(log, n, phase)
      && (outcome.Returned? ==> Covers(log, n, phase, 5))
    }

    /** The engine step, sent after `log`. */
    lemma EngineStops(log: seq<Request>, s: State, answer: (nat, Request) -> Reply)
      ensures var c := EngineCalls(s, |log|, answer, secretEngineName, "kv");
              StepOrderly(log + c.sent, |log|, answer, c.outcome, 1)
    {
      var enable := EnableEngine(secretEngineName, "kv", secretEngineName + " secrets engine");
      ListThenCreateStops(log, s, answer, ListEngines, enable, secretEngineName + "/" in s.engines);
      SentConfigured(log, EngineCalls(s, |log|, answer, secretEngineName, "kv").sent);
    }

    /** The policy step, sent after `log`. */
    lemma PolicyStops(log: seq<Request>, s: State, answer: (nat, Request) -> Reply)
      ensures var c := PolicyCalls(s, |log|, answer, policyName, GetPolicy());
              StepOrderly(log + c.sent, |log|, answer, c.outcome, 2)
    {
      ListThenCreateStops(log, s, answer, ListPolicies, WritePolicy(policyName, GetPolicy()), policyName in s.policies);
      SentConfigured(log, PolicyCalls(s, |log|, answer, policyName, GetPolicy()).sent);
    }

    /** The auth method step, sent after `log`. */
    lemma AuthStops(log: seq<Request>, s: State, answer: (nat, Request) -> Reply)
      ensures var c := AuthCalls(s, |log|, answer, authMethodName);
              StepOrderly(log + c.sent, |log|, answer, c.outcome, 3)
    {
      ListThenCreateStops(log, s, answer, ListAuthMethods, EnableAuth(authMethodName, "userpass"),
                          authMethodName + "/" in s.authMethods);
      SentConfigured(log, AuthCalls(s, |log|, answer, authMethodName).sent);
    }

    /** The user step, sent after `log`: the last step, so it covers step 4 alone. */
    lemma UserStops(log: seq<Request>, s: State, answer: (nat, Request) -> Reply)
      ensures var c := UserCalls(s, |log|, answer, userName, password, policyName, authMethodName);
              Orderly(log + c.sent, |log|, answer, c.outcome, 4)
    {
      var c := UserCalls(s, |log|, answer, userName, password, policyName, authMethodName);
      UserCallsStops(log, s, answer, userName, password, policyName, authMethodName);
      SentConfigured(log, c.sent);
      assert (log + c.sent)[|log|].Phase() == 4;
    }

    /** Configured calls from `n` up to the end of `first`, and from there to the end of `all`. */
    lemma ConfiguredJoin(first: seq<Request>, all: seq<Request>, n: nat)
      requires |first| <= |all| && all[..|first|] == first
      requires AllConfigured(first, n) && AllConfigured(all, |first|)
      ensures AllConfigured(all, n)
    {
      forall i | n <= i < |first|
        ensures Configured(all[i])
      {
        assert all[i] == first[i];
      }
    }

    /** A step of configure_vault, followed, when it returned, by the steps after it. */
    lemma StepThen(log: seq<Request>, a: Calls, b: Calls, answer: (nat, Request) -> Reply, phase: nat)
      requires 1 <= phase <= 3
      requires StepOrderly(log + a.sent, |log|, answer, a.outcome, phase)
      requires a.outcome.Returned? ==> Orderly(log + a.sent + b.sent, |log + a.sent|, answer, b.outcome, phase + 1)
      ensures var r := AndThen(a, b);
              Orderly(log + r.sent, |log|, answer, r.outcome, phase)
    {
      var first := log + a.sent;
      if a.outcome.Raised? {
        InPhaseOrderly(first, |log|, phase);
      } else {
        var all := first + b.sent;
        Associative(log, a.sent, b.sent);
        assert all[..|first|] == first;
        StopsCompose(first, all, |log|, answer, b.outcome);
        ConfiguredJoin(first, all, |log|);
        PhasesJoin(first, all, |log|, phase);
        if b.outcome.Returned? {
          CoversJoin(first, all, |log|, phase);
        }
      }
    }

    /**
     * configure_vault, sent after `log`: its calls are configured ones of
     * steps 1 to 4, the steps never go back, the run stops at its first
     * failure, and a normal return means all four steps made a call.
     */
    lemma ConfigureStops(log: seq<Request>, s: State, answer: (nat, Request) -> Reply)
      ensures var r := ConfigureRun(s, log, answer);
              Orderly(log + r.sent, |log|, answer, r.outcome, 1)
    {
      var c1 := EngineCalls(s, |log|, answer, secretEngineName, "kv");
      EngineStops(log, s, answer);
      var l1 := log + c1.sent;
      var c2 := PolicyCalls(c1.state, |l1|, answer, policyName, GetPolicy());
      PolicyStops(l1, c1.state, answer);
      var l2 := l1 + c2.sent;
      var c3 := AuthCalls(c2.state, |l2|, answer, authMethodName);
      AuthStops(l2, c2.state, answer);
      var l3 := l2 + c3.sent;
      UserStops(l3, c3.state, answer);
      Chain(log, answer, c1, c2, c3, UserCalls(c3.state, |l3|, answer, userName, password, policyName, authMethodName));
    }

    /** Four steps, each sent after the ones before it. */
    lemma Chain(log: seq<Request>, answer: (nat, Request) -> Reply, c1: Calls, c2: Calls, c3: Calls, c4: Calls)
      requires StepOrderly(log + c1.sent, |log|, answer, c1.outcome, 1)
      requires StepOrderly(log + c1.sent + c2.sent, |log + c1.sent|, answer, c2.outcome, 2)
      requires StepOrderly(log + c1.sent + c2.sent + c3.sent, |log + c1.sent + c2.sent|, answer, c3.outcome, 3)
      requires Orderly(log + c1.sent + c2.sent + c3.sent + c4.sent, |log + c1.sent + c2.sent + c3.sent|, answer,
                       c4.outcome, 4)
      ensures var r := AndThen(c1, AndThen(c2, AndThen(c3, c4)));
              Orderly(log + r.sent, |log|, answer, r.outcome, 1)
    {
      var l1 := log + c1.sent;
      var l2 := l1 + c2.sent;
      StepThen(l2, c3, c4, answer, 3);
      StepThen(l1, c2, AndThen(c3, c4), answer, 2);
      StepThen(log, c1, AndThen(c2, AndThen(c3, c4)), answer, 1);
    }

    /**
     * Run again on a server that has the engine, the policy, the auth method
     * and the user, with listings that complete, configure_vault only lists:
     * it changes nothing and returns.
     */
    lemma ConfigureRerunOnlyLists(s: State, log: seq<Request>, answer: (nat, Request) -> Reply)
      requires secretEngineName + "/" in s.engines && policyName in s.policies
      requires authMethodName + "/" in s.authMethods && userName in Usernames(s.users, authMethodName)
      requires answer(|log|, ListEngines).Done? && answer(|log| + 1, ListPolicies).Done?
      requires answer(|log| + 2, ListAuthMethods).Done? && answer(|log| + 3, ListUsers(authMethodName)).Done?
      ensures ConfigureRun(s, log, answer) == Calls([ListEngines, ListPolicies, ListAuthMethods, ListUsers(authMethodName)], s, Returned)
    {
      var n := |log|;
      assert EngineCalls(s, n, answer, secretEngineName, "kv") == Calls([ListEngines], s, Returned);
      assert |log + [ListEngines]| == n + 1;
      assert PolicyCalls(s, n + 1, answer, policyName, GetPolicy()) == Calls([ListPolicies], s, Returned);
      assert |log + [ListEngines] + [ListPolicies]| == n + 2;
      assert AuthCalls(s, n + 2, answer, authMethodName) == Calls([ListAuthMethods], s, Returned);
      assert |log + [ListEngines] + [ListPolicies] + [ListAuthMethods]| == n + 3;
      assert UserCalls(s, n + 3, answer, userName, password, policyName, authMethodName)
             == Calls([ListUsers(authMethodName)], s, Returned);
    }

    /**
     * configure_vault changes neither flag, and never changes or drops an
     * existing engine, policy or auth method, nor any user but the
     * configured one; when the server completes every call with 204, it
     * returns with the engine, the policy, the auth method and the user all
     * present.
     */
    lemma ConfigureKeepsAndEnsures(log: seq<Request>, s: State, answer: (nat, Request) -> Reply)
      ensures Keeps(s, ConfigureRun(s, log, answer).state, UserKey(authMethodName, userName))
      ensures (forall i, q :: answer(i, q) == Done(204, NoBody)) ==>
                var r := ConfigureRun(s, log, answer);
                && r.outcome == Returned
                && secretEngineName + "/" in r.state.engines && policyName in r.state.policies
                && authMethodName + "/" in r.state.authMethods && userName in Usernames(r.state.users, authMethodName)
    {
      var key := UserKey(authMethodName, userName);
      var c1 := EngineCalls(s, |log|, answer, secretEngineName, "kv");
      EngineCallsKeep(s, |log|, answer, secretEngineName, "kv", key);
      var l1 := log + c1.sent;
      var c2 := PolicyCalls(c1.state, |l1|, answer, policyName, GetPolicy());
      PolicyCallsKeep(c1.state, |l1|, answer, policyName, GetPolicy(), key);
      var l2 := l1 + c2.sent;
      var c3 := AuthCalls(c2.state, |l2|, answer, authMethodName);
      AuthCallsKeep(c2.state, |l2|, answer, authMethodName, key);
      var l3 := l2 + c3.sent;
      var c4 := UserCalls(c3.state, |l3|, answer, userName, password, policyName, authMethodName);
      UserCallsKeep(c3.state, |l3|, answer, userName, password, policyName, authMethodName);
      KeepsChain(s, key, forall i, q :: answer(i, q) == Done(204, NoBody), c1, c2, c3, c4);
    }

    /**
     * Four steps that each keep the entries of the state before them keep
     * those of `s`; when each returns with its entity present, the chain
     * returns with all four present.
     */
    lemma KeepsChain(s: State, key: UserKey, completes: bool, c1: Calls, c2: Calls, c3: Calls, c4: Calls)
      requires key == UserKey(authMethodName, userName)
      requires Keeps(s, c1.state, key) && Keeps(c1.state, c2.state, key)
      requires Keeps(c2.state, c3.state, key) && Keeps(c3.state, c4.state, key)
      requires completes ==> c1.outcome == Returned && secretEngineName + "/" in c1.state.engines
      requires completes ==> c2.outcome == Returned && policyName in c2.state.policies
      requires completes ==> c3.outcome == Returned && authMethodName + "/" in c3.state.authMethods
      requires completes ==> c4.outcome == Returned && userName in Usernames(c4.state.users, authMethodName)
      ensures Keeps(s, AndThen(c1, AndThen(c2, AndThen(c3, c4))).state, key)
      ensures completes ==>
                var r := AndThen(c1, AndThen(c2, AndThen(c3, c4)));
                && r.outcome == Returned
                && secretEngineName + "/" in r.state.engines && policyName in r.state.policies
                && authMethodName + "/" in r.state.authMethods && userName in Usernames(r.state.users, authMethodName)
    {
      KeepsTransitive(s, c1.state, c2.state, key);
      KeepsTransitive(s, c2.state, c3.state, key);
      KeepsTransitive(s, c3.state, c4.state, key);
    }
  }

  /** The values the script's main block reads from the environment. */
  datatype Settings = Settings(
    url: string, shares: int, threshold: int, secretEngineName: string, policyName: string,
    authMethodName: string, userName: string, password: string)

  /**
   * The script's main block: initialize and unseal, then configure; an
   * exception from the first keeps the second from running, and an
   * exception anywhere ends the run.
   */
  method SetUpVault(settings: Settings, server: Server, answer: (nat, Request) -> Reply, external: External, today: Date)
    returns (config: VaultConfig, written: Option<CredentialsFile>, outcome: Outcome<Failure>)
    requires today.Valid()
    modifies server
    ensures fresh(config)
    ensures && config.url == settings.url && config.shares == settings.shares && config.threshold == settings.threshold
            && config.secretEngineName == settings.secretEngineName && config.policyName == settings.policyName
            && config.authMethodName == settings.authMethodName && config.userName == settings.userName
            && config.password == settings.password
    ensures var e := InitAndUnsealRun(old(server.state), |old(server.log)|, answer, settings.shares, settings.threshold,
                                      external, today, Kept(None, None, None));
            var r := config.ConfigureRun(e.state, old(server.log) + e.sent, answer);
            && config.Holds() == e.kept && written == e.written
            && (e.outcome.Raised? ==> server.log == old(server.log) + e.sent && server.state == e.state && outcome == e.outcome)
            && (e.outcome.Returned? ==>
                  server.log == old(server.log) + e.sent + r.sent && server.state == r.state && outcome == r.outcome)
    ensures StopsAtFailure(server.log, |old(server.log)|, answer, outcome)
    ensures PhasesAscend(server.log, |old(server.log)|)
    ensures outcome.Returned? ==> Covers(server.log, |old(server.log)|, 0, 5)
  {
    config := new VaultConfig(settings.url, settings.shares, settings.threshold, settings.secretEngineName,
                              settings.policyName, settings.authMethodName, settings.userName, settings.password);
    ghost var start := server.log;
    ghost var e := InitAndUnsealRun(server.state, |server.log|, answer, config.shares, config.threshold, external, today,
                                    config.Holds());
    outcome, written := config.InitializeAndUnseal(server, answer, external, today);
    assert server.log == start + e.sent && config.Holds() == e.kept;
    Advance(start, server.log, |start|, answer, outcome, 0, 0);
    if outcome.Returned? {
      ghost var initialized := server.log;
      ghost var initialState := server.state;
      var client;
      client, outcome := config.ConfigureVault(server, answer);
      config.ConfigureStops(initialized, initialState, answer);
      assert server.log[..|initialized|] == initialized && config.Holds() == e.kept;
      Configure(initialized, server.log, |start|, answer, outcome);
    }
  }

  /** Initialization that returned, followed by configuration. */
  lemma Configure(log1: seq<Request>, log2: seq<Request>, n: nat, answer: (nat, Request) -> Reply, outcome: Outcome<Failure>)
    requires n < |log1| <= |log2| && log2[..|log1|] == log1
    requires PhasesAscend(log1, n) && PhasesAtMost(log1, n, 0) && Covers(log1, n, 0, 1)
    requires StopsAtFailure(log1, n, answer, Returned)
    requires PhasesAscend(log2, |log1|) && StopsAtFailure(log2, |log1|, answer, outcome)
    requires PhasesFrom(log2, |log1|, 1)
    requires outcome.Returned? ==> Covers(log2, |log1|, 1, 5)
    ensures PhasesAscend(log2, n) && StopsAtFailure(log2, n, answer, outcome)
    ensures outcome.Returned? ==> Covers(log2, n, 0, 5)
  {
    StopsCompose(log1, log2, n, answer, outcome);
    forall i, j | n <= i < j < |log2|
      ensures log2[i].Phase() <= log2[j].Phase()
    {
      if j < |log1| {
        assert log2[i] == log1[i] && log2[j] == log1[j];
      } else if i < |log1| {
        assert log2[i] == log1[i];
      }
    }
    if outcome.Returned? {
      forall p | 0 <= p < 5
        ensures Ran(log2, n, p)
      {
        if p == 0 {
          assert Ran(log1, n, 0);
          var i :| n <= i < |log1| && log1[i].Phase() == 0;
          assert log2[i] == log1[i];
        } else {
          assert Ran(log2, |log1|, p);
        }
      }
    }
  }
}
