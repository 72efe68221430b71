# HubLink client: sync planner and confirmation gate

The HubLink client mirrors an object-storage bucket into a local directory (`./data`). It
fetches credentials from a secrets endpoint. Then it lists the bucket and works out which
objects are missing locally or have a different size locally. It reports the keys and the
byte total, asks the user to confirm, and hands the transfer to the external `aws s3 sync`
command.

This project models the two parts of `client.py` that carry decisions:

- **The sync planner** (`calculate_sync_requirements`), module `Planner` in `planner.dfy`.
  The method `CalculateSyncRequirements` keeps the source's shape. First comes the credential
  guard, then the outcome of the listing call. Then one loop over the listing grows the key
  list and the byte total. It is proved equal to the pure function `Requirements`, which is
  built on `Pending`, the listed objects that need syncing, in listing order. The loop's
  running state is `RunningPlan`, which is proved equal to that plan. The lemmas state
  what the plan means: which keys it holds, their order, and what the total adds up.
- **The confirmation gate** in `main`, module `Confirmation` in `confirmation.dfy`. `Accepts`
  is the test on the user's reply and `Confirm` is the gate. `ClientRun` is `main`'s control
  flow after the credentials are resolved: plan, maybe ask, then call the executor or abort.

The outside world is passed in as values:

- The storage call (client construction plus `list_objects_v2`) becomes a `ListResponse`:
  either an exception of one of the families the source catches, or a response whose
  `Contents` may be absent.
- The local filesystem becomes a `LocalDir` with three parts: the root, a path-joining
  function (left uninterpreted) and a map from existing paths to what a size query reports.
  A path that is not in the map does not exist (`os.path.exists` is false). `Unstatable`
  stands for a path that exists but whose size query raises an OS error. The source's
  catch-all handler turns that into the empty plan.
- The user's reply is a string parameter.

Besides the plan, the planner returns a `Notice`, the message it printed. The plan alone
cannot tell "nothing to sync" from "could not find out" (`FailureLooksLikeNothingToSync`).
The notice can tell them apart.

The model keeps the source's behaviour for an empty plan. An empty plan never prompts, and the
executor is still called. That includes the empty plan that follows a failure, such as missing
credentials or a listing error (`FailedPlanStillRunsExecutor`).

## Model

| member | source | states |
|---|---|---|
| `Planner.CalculateSyncRequirements` | client.py:31-76 | The loop's key list and byte total, and every early return, equal `Requirements`. That covers the credential guard, each exception family, the missing `Contents`, a size probe that raises, and the listing read to the end. |
| `Planner.CredentialsPresent` | client.py:32 | The guard fails exactly when one of access key, secret key or bucket is `None` or the empty string. |
| `Planner.FailureNotice` | client.py:70-75 | Missing or partial SDK credentials print the credential message. A service error prints the client message. Anything else goes to the catch-all. |
| `Planner.Pending` | client.py:50-55 | The objects selected for syncing are never more than the objects listed. |
| `Planner.PlanStep` | client.py:54-56 | One more listed object adds its key and its size to the plan exactly when the local file is absent or has a different size. Otherwise it adds nothing. |
| `Planner.PendingMembership` | client.py:54-55 | An object is selected iff it is listed and stale. |
| `Planner.PlannedKeyIff` | client.py:52-55 | A key is in the plan iff a listed object with that key has no local file at the joined path, or one of a different size. An equal size excludes it. |
| `Planner.RunningPlanIsPlan` | client.py:47-56 | After the loop has visited the first `n` objects, its key list and total are the plan of those `n` objects: their stale keys in order and the sum of those keys' sizes. |
| `Planner.PendingEmbeds` | client.py:50-55 | The selected objects sit at strictly increasing positions of the listing. |
| `Planner.PlanKeepsListingOrder` | client.py:50-55 | The planned keys are the listed keys at strictly increasing positions, so they keep listing order. There are at most as many as listed objects. |
| `Planner.PendingAppend` | client.py:50-56 | Planning a listing split in two gives the concatenation of the two parts' plans. |
| `Planner.PlanOfAppend` | client.py:50-56 | The plan of a listing split in two has the first part's keys followed by the second's, and the sum of the two totals. |
| `Planner.PendingIndicesExact` | client.py:50-55 | A listing position is planned iff the object there is stale, so the plan holds exactly the stale positions. |
| `Planner.SkippedObjectsDoNotContribute` | client.py:54-56 | Removing an object whose local copy has exactly the listed size, from anywhere in the listing, changes neither the keys nor the total. Skipped sizes never contribute. |
| `Planner.PlanTotalBounded` | client.py:56 | The total is never more than the sum of all listed sizes. |
| `Planner.CredentialGuard` | client.py:32-34 | With a missing or empty credential, the result is the empty plan with the invalid-credentials notice. It is the same for every listing outcome and every local directory, so no listing is consulted. |
| `Planner.EmptyBucket` | client.py:66-69 | A response without `Contents` gives the empty plan and the "no objects" notice. |
| `Planner.ProbeFailureAborts` | client.py:54 | A size query that raises at any position empties the whole plan. Keys already collected are discarded. |
| `Planner.ListingReadToEnd` | client.py:59-69 | A listing read without a probe failure yields its plan. The notice is "up to date" exactly when the plan is empty. |
| `Planner.FailureLooksLikeNothingToSync` | client.py:70-76 | A listing exception or a probe failure gives exactly the plan of an empty, up-to-date listing. Only the notice, a failure message, differs. |
| `Planner.SuccessfulPlan` | client.py:47-69 | After a successful listing: a key is planned iff some object with that key is stale, the total is bounded by the listed sizes, and the notice says files are pending iff the plan is non-empty. |
| `Planner.TwoObjectExample` | client.py:47-56 | `a.txt` (100 bytes, present with 100 bytes) and `b.txt` (200 bytes, absent) give the plan `[b.txt]` of 200 bytes. |
| `Confirmation.LowerChar` | client.py:109 | Lower-casing yields `y`, `e` or `s` exactly from that letter in either case. |
| `Confirmation.Lower` | client.py:109 | Lower-casing keeps the length and lower-cases each character in place. |
| `Confirmation.Accepts` | client.py:109 | The lower-cased reply is `''`, `'y'` or `'yes'`. So an accepted reply has 0, 1 or 3 characters and starts with `y` or `Y` when it is not empty. |
| `Confirmation.AcceptsExactly` | client.py:109 | Accepted replies are exactly these: the empty reply, `y`/`Y`, and the three letters `yes` in any mix of cases. |
| `Confirmation.Confirm` | client.py:107-111 | When the gate proceeds, it has asked the user exactly when the plan is non-empty. |
| `Confirmation.ConsentGatesTheExecutor` | client.py:107-111 | With a non-empty plan the gate proceeds iff the reply is one of the accepted spellings. Any other reply aborts. |
| `Confirmation.ClientRun` | client.py:104-114 | The executor is called with the credentials exactly as resolved. The run aborts iff the plan is non-empty and the reply is refused. |
| `Confirmation.EmptyPlanSkipsPrompt` | client.py:107-114 | An empty plan proceeds without asking, whatever would have been typed. |
| `Confirmation.RunDispatch` | client.py:104-114 | The executor is called unprompted exactly when the plan is empty. With a non-empty plan it is called iff the reply is accepted, and only after asking. |
| `Confirmation.FailedPlanStillRunsExecutor` | client.py:104-114 | Missing credentials, a listing exception or a probe failure lead to the executor being called without a prompt, with the credentials as resolved. |
| `Confirmation.EmptyBucketRunsExecutor` | client.py:104-114 | An empty bucket also leads to the executor being called without a prompt. |

## Left out

- Credential fetch (`get_s3_credentials`, client.py:18-29): HTTP I/O. The three credential values are parameters of the model.
- `get_s3_credentials` catches only `RequestException`; a payload missing a field raises `KeyError`, which propagates out of `main` (client.py:23-27). The model starts after the credentials are resolved, so it does not cover that crash.
- The storage SDK (`boto3.client`, `list_objects_v2`, client.py:38-45) is replaced by the `ListResponse` parameter. A single, unpaginated listing page is all the model sees, as in the source.
- Filesystem calls (`os.path.exists`, `os.path.getsize`) are replaced by the `LocalDir` map. Races between the two calls appear only as `Unstatable`.
- `os.path.join` semantics (for example, an absolute key replacing the root): the join is an uninterpreted function parameter.
- A listing entry without `Key` or `Size` (a `KeyError` that the catch-all would turn into the empty plan): listing entries always carry both here.
- Megabyte formatting (float division and two decimals, client.py:63 and 108): presentation only. The printed message is kept as a `Notice`.
- `Confirmation.ClientRun`: the reply is always a string. `input()` at client.py:108 raises `EOFError` when standard input is closed, and `main` does not catch it, so such a run ends with neither "Sync aborted" nor an executor call. The model has no such outcome.
- `Planner.CalculateSyncRequirements`: the model's prints never fail. In the source, the prints at client.py:60-67 sit inside the `try`. One that raises (for example, a key that stdout's encoding cannot show) sends the planner to the catch-all at client.py:74-76, which returns the empty plan even though the plan was already computed.
- The executor `sync_s3_to_local_with_cli` (client.py:78-97): PATH lookup, environment mutation and an external process. The model records only that it is called and with which credentials.
- `load_dotenv` and the module-level environment read (client.py:9-16).
- `Confirmation.LowerChar`, `Confirmation.Lower`: lower-case ASCII letters only, not the full Unicode mapping of `str.lower()`, and `Lower` keeps the length, which `str.lower()` does not for U+0130. Acceptance is unaffected: under `str.lower()` no non-ASCII character maps to a string containing `y`, `e` or `s`, and U+0130, the only character whose length changes, lower-cases to `i` plus a combining dot. So `Accepts` answers as client.py:109 does on every string.
