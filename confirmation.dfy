/** The client's entry point after the planner: the yes/no confirmation and the decision to
    hand over to the external sync tool. The reply read from standard input is a parameter;
    the external tool's run is left out, and the model records only whether it is called and
    with which credentials. */
module Confirmation {
  import opened Options
  import opened Planner

  /** Lower-casing of one character, for the ASCII letters. */
  function LowerChar(c: char): (l: char)
    ensures l == 'y' <==> c in "yY"
    ensures l == 'e' <==> c in "eE"
    ensures l == 's' <==> c in "sS"
  {
    if 'A' <= c <= 'Z' then (c as int - 'A' as int + 'a' as int) as char else c
  }

  /** ASCII lower-casing, character by character. */
  function Lower(s: string): (r: string)
    ensures |r| == |s|
    ensures forall i :: 0 <= i < |s| ==> r[i] == LowerChar(s[i])
    decreases |s|
  {
    if s == [] then [] else [LowerChar(s[0])] + Lower(s[1..])
  }

  /** The reply lets the sync go ahead: lower-cased, it is empty, `y` or `yes`. */
  predicate Accepts(reply: string): (ok: bool)
    ensures ok ==> |reply| in {0, 1, 3}
    ensures ok && reply != [] ==> reply[0] in "yY"
  {
    Lower(reply) in ["", "y", "yes"]
  }

  /** The accepted replies, spelled out: the empty reply, `y` in either case, and `yes` with
      each letter in either case (`YES`, `Yes`, `yEs`, ...). Nothing else is accepted. */
  lemma AcceptsExactly(reply: string)
    ensures Accepts(reply) <==>
      || reply == ""
      || (|reply| == 1 && reply[0] in "yY")
      || (|reply| == 3 && reply[0] in "yY" && reply[1] in "eE" && reply[2] in "sS")
  {
    var l := Lower(reply);
    if |reply| == 1 {
      assert l == "y" <==> l[0] == 'y';
    } else if |reply| == 3 {
      assert l == "yes" <==> l[0] == 'y' && l[1] == 'e' && l[2] == 's';
    }
  }

  /** Whether the executor is reached, and whether the user was asked first. */
  datatype Decision = Proceed(prompted: bool) | Aborted

  /** The gate: a non-empty plan asks the user and needs an accepting reply; an empty plan
      skips the question and proceeds. */
  function Confirm(keys: seq<string>, reply: string): (d: Decision)
    ensures d.Proceed? ==> (d.prompted <==> keys != [])
  {
    if keys == [] then Proceed(false)
    else if Accepts(reply) then Proceed(true)
    else Aborted
  }

  /** How a run of the client ends: the executor is called with the credentials as they were
      resolved, or the user declined. */
  datatype RunOutcome =
    | ExecutorCalled(bucket: Option<string>, access: Option<string>, secret: Option<string>, prompted: bool)
    | AbortedByUser

  /** The entry point after the credentials are resolved: plan, confirm, dispatch. */
  function ClientRun(access: Option<string>, secret: Option<string>, bucket: Option<string>,
                     response: ListResponse, dir: LocalDir, reply: string): (r: RunOutcome)
    ensures r.ExecutorCalled? ==> r.bucket == bucket && r.access == access && r.secret == secret
    ensures r == AbortedByUser <==>
      Requirements(access, secret, bucket, response, dir).0.keys != [] && !Accepts(reply)
  {
    var (plan, _) := Requirements(access, secret, bucket, response, dir);
    match Confirm(plan.keys, reply)
    case Aborted => AbortedByUser
    case Proceed(prompted) => ExecutorCalled(bucket, access, secret, prompted)
  }

  /** With a non-empty plan the sync goes ahead exactly on an accepting reply; any other
      reply returns before the executor is called. */
  lemma ConsentGatesTheExecutor(keys: seq<string>, reply: string)
    requires keys != []
    ensures Confirm(keys, reply) == Proceed(true) <==>
      || reply == ""
      || (|reply| == 1 && reply[0] in "yY")
      || (|reply| == 3 && reply[0] in "yY" && reply[1] in "eE" && reply[2] in "sS")
    ensures Confirm(keys, reply) != Proceed(true) ==> Confirm(keys, reply) == Aborted
  {
    AcceptsExactly(reply);
  }

  /** An empty plan never asks: whatever would have been typed, the executor is called. */
  lemma EmptyPlanSkipsPrompt(reply1: string, reply2: string)
    ensures Confirm([], reply1) == Confirm([], reply2) == Proceed(false)
  {
  }

  /** The client reaches the executor without asking exactly when the plan is empty; when it
      asks, it reaches the executor only on an accepting reply. */
  lemma RunDispatch(access: Option<string>, secret: Option<string>, bucket: Option<string>,
                    response: ListResponse, dir: LocalDir, reply: string)
    ensures var keys := Requirements(access, secret, bucket, response, dir).0.keys;
      && (keys == [] ==> ClientRun(access, secret, bucket, response, dir, reply) == ExecutorCalled(bucket, access, secret, false))
      && (keys != [] ==> (ClientRun(access, secret, bucket, response, dir, reply).ExecutorCalled? <==> Accepts(reply)))
      && (keys != [] && ClientRun(access, secret, bucket, response, dir, reply).ExecutorCalled? ==>
            ClientRun(access, secret, bucket, response, dir, reply).prompted)
  {
  }

  /** Fail-soft: a planner that failed (missing credentials, a listing exception, a size probe
      that raised) produces the empty plan, so the client skips the question and still calls
      the executor, with the same credentials, whatever the user would have typed. */
  lemma FailedPlanStillRunsExecutor(access: Option<string>, secret: Option<string>, bucket: Option<string>,
                                    response: ListResponse, dir: LocalDir, reply: string)
    requires || !CredentialsPresent(access, secret, bucket)
             || response.Raised?
             || (response.Listed? && response.contents.Some? && AnyProbeFails(dir, response.contents.value))
    ensures ClientRun(access, secret, bucket, response, dir, reply) == ExecutorCalled(bucket, access, secret, false)
  {
  }

  /** The empty bucket is handled the same way: no question, and the executor is called. */
  lemma EmptyBucketRunsExecutor(access: Option<string>, secret: Option<string>, bucket: Option<string>,
                                dir: LocalDir, reply: string)
    ensures ClientRun(access, secret, bucket, Listed(None), dir, reply) == ExecutorCalled(bucket, access, secret, false)
  {
  }
}
