# reststrategy, verified

A Dafny model of the reststrategy repository with proofs about it: the seeding
engine, which runs an ordered list of actions against a REST server, and the
Kubernetes controller, which runs the engine whenever a resource changes.

`dafny verify dfyconfig.toml` checks the whole project.

## What is modelled

**The engine, twice.** `Engine.dfy` and `Runs.dfy` give the engine as
mathematics: a strategy is a state machine over the results of its requests
(`Engine.Decide`), an action is that machine played against a server
(`Engine.RunStrategy`), a run is a loop over actions (`Runs.Loop`). A server is
*any* state machine from requests to replies: every status, every body, a
network failure or an unreadable body. `SeederImpl.dfy`, `Seeder.dfy` and
`RstService.dfy` have the same code in its own form, as objects that update
captured variables, the process environment, an action's private fields and the
variables map that copies of an action share; every method is proved to compute
the mathematical function. The theorems are about that function.

* `Traces.dfy`, `Witnesses.dfy`: which requests an action can make, with which
  contents, and when it returns nil, against any server.
* `Answers.dfy`: which request follows which answer, which error is returned and
  what is sent, strategy by strategy, in the numerals and fields of the source.
* `History.dfy`, `Stains.dfy`: where the values in templates come from, and that
  captured values left in shared maps make no difference.
* `Schedule.dfy`: which actions a run performs and which errors it reports.
* `Store.dfy`: a conforming server, a map from keys to items with GET, POST, PUT
  and DELETE as in sections 9.3.1, 9.3.3, 9.3.4 and 9.3.5 of RFC 9110 and PATCH
  as in section 2 of RFC 5789 with an idempotent merge as in section 2 of RFC
  7396. Any request may fail, with or without having been carried out.
* `Steady.dfy`: what an action's requests depend on.
* `Attempts.dfy`, `Retry.dfy`, `Convergence.dfy`, `Confluence.dfy`: idempotent
  seeding. One attempt, any number of attempts at one action, any number of
  whole runs, and runs in different orders. The theorems suppose routes for the
  requests that a strategy can make, with the ids that its expression can find,
  and for no others, and that the requests of each performed action, as its
  templates read when its turn comes, reach its target (`Convergence.OnTarget`).
* `Guidance.dfy`, `PassingIds.dfy`: when runs stay on target, and the part that
  FailFast has in it when one action captures what another one's templates
  mention. `Inhabited.dfy` shows that the hypotheses can be met by several
  actions in one collection, with every strategy that the theorems cover.

**The controller, twice.** `Reconcile.dfy` is a state machine whose steps are
API writes, deliveries to the informer's cache (which may skip versions but no
deletion), handler calls, the steps of any number of workers, delays and resync
ticks, in every interleaving; the work queue is taken from its documented
contract (`WorkQueue.dfy`). `Settling.dfy` states what holds in every reachable
state and over whole runs. `Controller.dfy` has the handlers, `syncHandler` and
`processNextWorkItem` as methods, proved against the same queue functions and
handler conditions, and `Refinement.dfy` proves that a call of
`processNextWorkItem` is a run of the machine. `Resync.dfy` is the arithmetic of
the periodic resync. `DeepCopy.dfy`, `Copies.dfy` and `Resource.dfy` have the deep
copies on a heap of pointers, maps, slices and nested JSON, up to whole resources;
`SameValues.dfy` says what equal values are, field by field.

## Where the code and its documentation differ

* README.md:13 promises idempotent seeding. `Retry.RetrySafety` gives the exact
  condition under which attempts that fail half way and are repeated do what one
  attempt would have done: always, except that FIND/DELETE/POST must start from
  at most one matching item, FIND/PATCH/POST from some matching item or with a
  patch that changes nothing in what it posts, and that actions that post
  whatever there is are never safe. Outside the condition,
  `Retry.RecreationLosesItems`, `Retry.CreationIsPatched` and
  `Retry.PostingDuplicates` construct the failures that break it.
* Passing a captured id from one action to the next is retry safe with FailFast
  only (`PassingIds.PassingIdsNeedsFailFast`): without it, a run of two PUT
  actions can leave an item behind that no number of further runs removes.
* An id that is found is put into the URL as it is. Where the URL then shows
  another id, because of a fragment, an escape or a placeholder in it,
  `Attempts.LostIdsStray` has the wrong item overwritten and no error returned.
* FIND/DELETE is documented (seeder/README.md:100) and declared
  (seeder/seeder.go:27) but not registered; it is skipped as unknown.
* The resync period is described as the time between resyncs
  (controller/internal/k8s/controller.go:375-380). `Resync.WhenThePeriodIsKept`
  proves that it is exactly when the period divides 24; otherwise the gaps are
  shorter at midnight, and never longer than 24 hours.

## Model

| member | source | states |
|---|---|---|
| Wire.FallbackFlags | seeder/rest.go:200-233 | a failed call allows a fallback iff it was answered with a status of 300 to 499; a fallback is never fatal, and a failure is fatal iff there was no readable answer, so that 5xx is neither |
| Text.FirstNodeCounts | seeder/rest.go:387-413 | whatever follows it, the first node decides: the text of a number, the unquoted text of a string, the raw text and an error for one that cannot be unquoted, an error otherwise; the document is unquoted first if it can be |
| Text.NothingIsFound | seeder/rest.go:382-416 | nothing is found without an expression or without a node; an empty document and a failed lookup are errors |
| Traces.TraceOfAnAction | seeder/seederstrategies.go:11-206 | against any server: the requests of an action form a word of its strategy's finite language; each request but the last succeeded, or failed with 3xx/4xx in GET/PUT/POST, PUT/POST or FIND/DELETE/POST without expression; the result is nil iff the last request succeeded and no lookup erred; every request has exactly the path, body and id that the history before it determines, its URL being the endpoint, the action's own suffix for that verb if there is one, and for PUT, PATCH and DELETE a slash and the found id if there is one |
| Traces.ShortWords | seeder/seederstrategies.go:11-206 | every word has at most three requests, one POST and one DELETE, and only its first request can be a GET |
| Witnesses.EveryWordIsSpoken | seeder/seederstrategies.go:11-206 | the languages are exact: for each word of each strategy there is a server against which the strategy makes just these requests |
| Answers.OutcomeOfAnAction | seeder/rest.go:200-237 | against any server: no request follows an answer of 500 or more, nor a later one of 300 or more; nil only after a last answer of at most 299; otherwise the error is that of the lookup, or has status (999 without an answer), message, name, request and both flags of the last answer |
| Answers.NothingIsSent | seeder/rest.go:276-288 | no request is made iff the strategy begins with a GET whose URL cannot be built, and then that error is returned |
| Answers.OneRequest | seeder/seederstrategies.go:178-189 | PUT and POST make exactly their one request |
| Answers.WhenPutPostPosts | seeder/seederstrategies.go:193-206 | PUT/POST posts iff its PUT was answered with 300 to 499 |
| Answers.WhenGetPostPosts | seeder/seederstrategies.go:11-25 | GET/POST posts iff its GET was answered with at most 299 and an empty body |
| Answers.WhenGetPutPostWrites | seeder/seederstrategies.go:140-174 | GET/PUT/POST stops without an answer or after 500 or more, posts after 300 to 499 or an empty body, and puts after any other answer |
| Answers.WhenFindPostPosts | seeder/seederstrategies.go:30-52 | FIND/POST posts iff its GET was answered with at most 299 and its lookup does not fail and finds nothing or PostIsPut is set |
| Answers.WhenFindersWrite | seeder/seederstrategies.go:58-100 | after a GET answered with at most 299 and a lookup that does not fail FIND/PUT/POST puts and FIND/PATCH/POST patches what is found, and both post if nothing is; otherwise they stop |
| Answers.WhenFindDeletePostWrites | seeder/seederstrategies.go:103-135 | FIND/DELETE/POST posts after 300 to 499 if it has no expression and when nothing is found, deletes what is found, and posts after a DELETE answered with at most 299; otherwise it stops |
| Answers.RegisteredNames | seeder/seeder.go:61-71 | which nine names are registered, and for which strategies |
| Answers.ReplacedTemplatesAreSent | seeder/seeder.go:195-219 | the requests of a performed action: POST and PUT carry the replaced payload as it reads when the action begins, PATCH the replaced patch payload as it reads once the GET has been answered, with the replaced variables; all else comes from the action's own fields |
| Answers.RaisedErrors | seeder/seeder.go:195-219 | an action whose placeholders cannot be replaced is run as it is and raises the replacement error, followed by the error of its strategy if there is one |
| Traces.UnbuildableGet | seeder/rest.go:282-288 | a GET that cannot be built ends the action with a plain error and without any request |
| History.EveryValueIsExplained | seeder/rest.go:422-472 | over any number of runs of a new seeder: each templated text is its template with every name replaced by the last captured value, else the action's variable, else the newest earlier binding, else the initial environment, else nothing; and the captured variables are exactly what the log of successful responses says, the last non-empty value winning; names and values that os.Setenv refuses are skipped |
| History.CapturesOnlyGrow | seeder/rest.go:60-64 | further requests never remove a captured name, and change its value only through a successful response that declares it |
| Stains.StainsDoNotMatter | seeder/rest.go:422-437 | captured values that earlier runs have left in the shared variables maps change neither requests, server, environment, captures nor errors of a later run, without configmanager or with one that treats them as any other variables |
| Stains.TurnsDoNotMatter | seeder/seeder.go:171-184 | actions whose stored copies share one variables map: under the same condition the run of the actions as they stand when their turn comes is the run of the actions as they stood at the beginning |
| Stains.PickyIsNotTolerant | seeder/seeder.go:210-219 | the condition is needed: a configmanager that refuses a captured value gives an error that it does not give before the value is captured |
| Schedule.RunAccumulates | seeder/seeder.go:171-206 | without FailFast the error list after each known action is the old list twice and then the new errors |
| Schedule.ErrorList | seeder/seeder.go:171-192 | its closed form: how often each error occurs, the total length and its bound of twice 2^n - 1, first occurrences in run order, and that it is empty iff nothing was raised |
| Schedule.CopiesOfALoneError | seeder/seeder.go:174-175 | an error that only the j-th of n known actions raises is listed 2^(n-1-j) times |
| Schedule.FailFastRun | seeder/seeder.go:176-179 | with FailFast the run ends at the first action that raises anything and reports exactly what that one raised |
| Schedule.PerformedActions | seeder/seeder.go:171-184 | the performed actions are the known ones in order, each once: all of them, or with FailFast the prefix that ends at the first failure |
| Schedule.EveryDeedIsProper | seeder/seeder.go:171-206 | a run is its actions one after the other, each beginning where the last ended, with an empty private id and with requests and outcome as for a single action |
| Schedule.ThroughoutIsEveryDeed | seeder/seeder.go:171-184 | what holds throughout a run, as the theorems about stores suppose, is what every performed action finds |
| Steady.ReadingsDecide | seeder/seeder.go:195-206 | whatever templates mention and whatever the action captures in between: its requests, their replies, the server after it and its errors depend on what ran before only through what the names read like when it begins that its payloads and the paths it can send mention, with no other id than the one that its GET is about to find |
| Steady.PerformIsDrive | seeder/seeder.go:195-206 | an action's effect on the server and its errors are those of its strategy against the server alone, with requests that follow from the bindings and captured names where it begins and from its own replies |
| Guidance.GuidedHistory | seeder/seeder.go:151-206 | when each action's requests reach its target once the actions that it needs have returned nil in the same run, every history of runs in which they come first is on target, with FailFast, or without it if no action needs another |
| Runs.SortedByOrder | seeder/seeder.go:161-169 | a list is sorted iff Orders never fall, none above 999 comes before an action without Order and none below 999 after one: actions without Order and those of Order 999 are tied |
| Guidance.OrderMeetsNeeds | seeder/seeder.go:161-169 | in a run that respects Order every action comes after those of lower Order that it needs |
| Guidance.IndependentIsOnTarget | seeder/rest.go:422-437 | when no text that an action can send, with the ids that it can find, mentions a name that a response captures or only another action binds, every history is on target, with or without FailFast; captures that no such text mentions, and different variables, are no hindrance |
| PassingIds.PassingIdsWithFailFast | seeder/seeder.go:176-179 | a plan in which the second action's path holds an id that the first one captures is on target under FailFast, in every history of runs that respect Order, from any store and with any failures |
| PassingIds.PassingIdsWithoutFailFast | seeder/seeder.go:171-184 | without FailFast a failure of the first action sends the second to a path without an id; after a further run has returned nil, and after any number of further runs, there is still an item that no action owns |
| PassingIds.PassingIdsNeedsFailFast | seeder/seeder.go:171-184 | over all failures, stores and histories of sorted runs the plan is retry safe iff it is run with FailFast |
| Attempts.AttemptIsBounded | seeder/seederstrategies.go:30-206 | one attempt against a store that routes the requests the strategy can make, with the ids that its expression can find, and may fail any of them: only the action's own items change, to a possible outcome; nil means completed; and without failures the result is nil |
| Attempts.FindsTheFirst | seeder/rest.go:393-413 | if JSONPath yields for a listing the ids of all matching items in listing order, as numbers or quoted texts, then the action finds the first, or nothing if none matches |
| Attempts.LostIdsStray | seeder/rest.go:332-353 | the routes for found ids are needed: FIND/PUT/POST whose found id leads its PUT to another item overwrites that item, leaves its own as they are, and returns nil |
| Retry.NoDuplicates | seeder/seederstrategies.go:30-135 | a completed FIND action turns m matching items into max(1, m), changes or removes at most the found one, and adds at most one |
| Retry.RetriesComplete | seeder/seederstrategies.go:58-206 | any number of attempts with any failures, ended by one that returns nil, completes the action once and touches nothing else |
| Retry.CompletedIsUnique | seeder/seederstrategies.go:58-206 | two ways of completing an action differ at most in the id of one new item, and only if one was created |
| Retry.RecreatedItem | seeder/seederstrategies.go:103-135 | FIND/DELETE/POST from at most one match ends in exactly one item, with the posted content |
| Retry.RetrySafety | seeder/seederstrategies.go:30-206 | retrying is safe iff FIND/DELETE/POST starts from at most one match, FIND/PATCH/POST from some match or an ineffective patch, and the action does not post whatever there is; for other strategies always |
| Retry.RecreationLosesItems | seeder/seederstrategies.go:124-131 | FIND/DELETE/POST with two or more matches, a DELETE whose POST fails and a retry that returns nil: one item less than a completed attempt leaves |
| Retry.CreationIsPatched | seeder/seederstrategies.go:91-99 | FIND/PATCH/POST from no match, a POST whose answer is lost and a retry that returns nil: one item, with the posted content patched |
| Retry.PostingDuplicates | seeder/seederstrategies.go:186-189 | an action that posts whatever there is (POST; a FIND strategy without expression; FIND/POST with PostIsPut), a POST whose answer is lost and a retry that returns nil: two new items |
| Convergence.SeedingIsRetrySafe | seeder/seeder.go:151-193 | any number of whole runs, in any orders and with any failures, ended by one of all actions without errors, in which actions reach their targets when their turn comes: every action that is retryable from the first store is completed once as seen from it, whatever the others are, and what belongs to no action is as it was |
| Convergence.SuccessfulHistoriesAgree | seeder/seeder.go:151-193 | two histories of runs from one store that both end without errors agree on what belongs to no action, and on the items of each retryable action up to the new id |
| Convergence.RunIsComplete | seeder/seeder.go:151-193 | a single run of all actions, each once, that returns no errors completes every one of them, from any store and for every strategy the store theorems cover |
| Convergence.RunsInAnyOrderAgree | seeder/seeder.go:99-184 | any two such runs, in whatever orders and with whatever failures, agree on what belongs to no action and on each action's items up to the id that the server chose |
| Convergence.CalmRunSucceeds | seeder/seeder.go:151-193 | a run in which no request fails returns no errors, provided placeholders can be replaced and PUT alone finds its item or may create it |
| Convergence.SeedingConverges | seeder/seeder.go:151-193 | after one run of all actions without errors, every retryable action other than FIND/DELETE/POST is at its fixpoint, and further runs change neither its items nor what belongs to no action, whatever fails in them and whatever else the plan contains |
| Convergence.SeedingIsIdempotent | seeder/seeder.go:151-193 | if all actions are such, the whole store is, item for item, as the first run without errors has left it, however many runs follow and whatever fails in them |
| Convergence.RunsKeep | seeder/seeder.go:151-193 | any further runs leave every zone that is at its fixpoint, and what belongs to no action, item for item as they were |
| Convergence.SeedingConvergesAtTheSecondRun | seeder/seederstrategies.go:58-206 | from the second run without errors on the same holds of every action that does not create an item in every run, from any store |
| Convergence.SeedingIsIdempotentFromTheSecondRun | seeder/seederstrategies.go:58-206 | and if there are only such actions, the whole store no longer changes |
| Confluence.SortedListsAgree | seeder/seeder.go:158-169 | two lists of the same actions that are sorted by Order have the same effect from a state of an invariant that the actions keep and in which different actions of equal Order commute |
| Confluence.ApartCommute | seeder/seederstrategies.go:30-206 | actions commute on a store in which no item concerns both, if neither writes one that does |
| Confluence.OrderConfluence | seeder/seeder.go:99-184 | runs of the same actions that respect Order end in the same store, however map iteration and the sort have ordered equal ones, if no item concerns two actions of equal Order and none is written that does; with FailFast, if neither run ends early |
| Confluence.DisjointIsConfluent | seeder/seeder.go:99-184 | the same from conditions on the actions: disjoint claims, different new items, and places for these that are free or hold the action's own item |
| Inhabited.SensibleIsPossible | seeder/seeder.go:61-71 | one service admits two FIND actions, one by-key action and one POST in one collection, with any strategies of these kinds and a suffix of its own for every verb, where listings show the quoted ids of all items, URLs lose fragments and escapes, paths and payloads hold placeholders, and each action binds one name and captures another: they and the empty store meet the hypotheses of the theorems about whole runs, for all failures and all orders of runs |
| Inhabited.SeveralMatches | seeder/rest.go:399-409 | in its listings an expression can match several items, all of which are shown |
| Inhabited.IdsCanBeLost | seeder/rest.go:332-339 | in its library an id with a fragment or an escape leads to the path of another id, and an id with a dollar sign is a placeholder |
| Inhabited.OrderlessIsPossible | seeder/seeder.go:161-169 | the same four actions, all without Order and so tied, meet the hypotheses of order confluence, in the same library, when the service derives ids from contents |
| SeederImpl.SeederImpl.RuntimeVars | seeder/rest.go:66-74 | the copy equals the captured variables, whatever the iteration order |
| SeederImpl.SeederImpl.Do | seeder/rest.go:192-238 | one call: templated path, request, classification, log entry and captures are those of Engine.Do |
| SeederImpl.SeederImpl.Report | seeder/rest.go:204-233 | the error that Wire.Classify gives for a failed call, and none for a success |
| SeederImpl.SeederImpl.Get | seeder/rest.go:276-291 | the GET of the engine; no id is appended |
| SeederImpl.SeederImpl.Post | seeder/rest.go:293-309 | the POST of the engine, with the templated payload and without an id |
| SeederImpl.SeederImpl.Put | seeder/rest.go:332-353 | the PUT of the engine, to the found id if there is one |
| SeederImpl.SeederImpl.Patch | seeder/rest.go:311-330 | the PATCH of the engine, to the found id if there is one |
| SeederImpl.SeederImpl.Delete | seeder/rest.go:355-373 | the DELETE of the engine, without a body |
| SeederImpl.SeederImpl.FindPathByExpression | seeder/rest.go:380-417 | computes Text.FindPath: the first node counts (Text.FirstNodeCounts), or nothing is found (Text.NothingIsFound) |
| SeederImpl.SeederImpl.TemplateWithVars | seeder/rest.go:422-437 | overwrites the caller's map with the captured values, exports it and substitutes; the result does not depend on earlier captures left in the map |
| SeederImpl.SeederImpl.TemplatePayload | seeder/rest.go:439-450 | the environment after exporting every variable in any order, and the substituted text |
| SeederImpl.SeederImpl.FindRuntimeVars | seeder/rest.go:454-472 | captures the declared names whose lookup yields something, in any order, and keeps all others |
| SeederImpl.SeederImpl.GetPost | seeder/seederstrategies.go:11-25 | computes RunStrategy for GET/POST on the state before the call |
| SeederImpl.SeederImpl.FindPost | seeder/seederstrategies.go:30-52 | computes RunStrategy for FIND/POST |
| SeederImpl.SeederImpl.FindPutPost | seeder/seederstrategies.go:58-77 | computes RunStrategy for FIND/PUT/POST |
| SeederImpl.SeederImpl.FindPatchPost | seeder/seederstrategies.go:80-100 | computes RunStrategy for FIND/PATCH/POST |
| SeederImpl.SeederImpl.FindDeletePost | seeder/seederstrategies.go:103-135 | computes RunStrategy for FIND/DELETE/POST |
| SeederImpl.SeederImpl.GetPutPost | seeder/seederstrategies.go:140-174 | computes RunStrategy for GET/PUT/POST |
| SeederImpl.SeederImpl.RunPut | seeder/seederstrategies.go:178-181 | computes RunStrategy for PUT |
| SeederImpl.SeederImpl.RunPost | seeder/seederstrategies.go:186-189 | computes RunStrategy for POST |
| SeederImpl.SeederImpl.PutPost | seeder/seederstrategies.go:193-206 | computes RunStrategy for PUT/POST |
| SeederImpl.PutThenPost | seeder/seederstrategies.go:195-204 | every error of the PUT is a Diagnostic, so that none is dropped; the POST follows iff the PUT failed with 3xx or 4xx |
| Seeder.StrategyRestSeeder.WithActions | seeder/seeder.go:99-105 | appends each given action once, under its key as private name, in any order |
| Seeder.StrategyRestSeeder.WithActionsList | seeder/seeder.go:118-124 | appends the given actions in order, under their own names |
| Seeder.StrategyRestSeeder.WithAuthFromList | seeder/seeder.go:108-115 | the map holds the last configuration of each name |
| Seeder.StrategyRestSeeder.ReplaceAuthTokens | seeder/seeder.go:138-148 | an error iff there are auth instructions and they cannot be replaced; otherwise the replaced ones are in use |
| Seeder.StrategyRestSeeder.Compare | seeder/seeder.go:161-169 | not positive iff the first may come first, not negative iff the second may, an absent Order standing where 999 stands |
| Seeder.StrategyRestSeeder.SortActions | seeder/seeder.go:161-169 | the same actions; none of Order above 999 is before one without Order, none below 999 after one, and of two with Orders the lower comes first |
| Seeder.StrategyRestSeeder.ReplaceAction | seeder/seeder.go:210-219 | replaces the two templates and the variables only, and nothing on failure |
| Seeder.StrategyRestSeeder.PerformAction | seeder/seeder.go:195-206 | the errors handed in, then a replacement error, then the strategy's error; the strategy works on the replaced action |
| Seeder.StrategyRestSeeder.Execute | seeder/seeder.go:151-193 | the whole run equals Runs.Execute on the stored actions in an order that respects Order as above, as they stand when their turn comes, which is as they stood before unless they share a map; stored actions keep empty private fields, and their maps gain captured values only |
| RstService.Service.SortActions | controller/pkg/rstservice/rstservice.go:31-37 | the map holds exactly the last action of each name |
| RstService.Service.SortAuth | controller/pkg/rstservice/rstservice.go:39-45 | the map holds exactly the last configuration of each name |
| RstService.Service.Execute | controller/pkg/rstservice/rstservice.go:26-29 | runs exactly the last entry of each name, each once, together with what earlier calls have stored, in an order sorted by Order: same requests, server and errors as Runs.Execute, whatever maps the entries share |
| Settling.NoLostUpdate | controller/internal/k8s/controller.go:202-392 | in every reachable state each cached resource has been handled at its cached generation (the service was executed with it, or it was dropped because its placeholders could not be replaced), is with a worker that has just looked it up at that generation, or its key is due to be looked at; and a dirty key is in line or with a worker |
| Settling.QuietIsHandled | controller/internal/k8s/controller.go:202-392 | with nothing outstanding every resource has been handled at its latest generation |
| Settling.QuietIsExecuted | controller/internal/k8s/controller.go:282-306 | with nothing outstanding the service has been executed with the latest generation of a resource iff its placeholders can be replaced |
| Settling.OneWorkerPerKey | controller/internal/k8s/controller.go:82-87 | no two workers hold the same key, and a key has been taken once more than released exactly while a worker holds it |
| Settling.NoSelfTriggering | controller/internal/k8s/controller.go:311-369 | outside resync ticks the handlers enqueue a key at most once for each creation or spec change, however many status writes there are |
| Settling.UpdatesTriggerExactly | controller/internal/k8s/controller.go:356-392 | an update that skips any number of versions enqueues iff one of them changed the generation; a resync alone never does |
| Settling.StatusIsNoChange | controller/internal/k8s/controller.go:311-327 | the status write adds a version that is no change of the spec |
| Settling.CalmRunsAreBounded | controller/internal/k8s/controller.go:202-369 | without writes, ticks and lookup failures every run ends within a bound computed from its first state |
| Settling.StuckIsQuiet | controller/internal/k8s/controller.go:202-254 | with a worker, no step is left only if nothing is outstanding |
| Settling.Settles | controller/internal/k8s/controller.go:202-392 | from every reachable state such runs are bounded and end with every resource handled at its latest generation |
| Settling.SettlesExecuted | controller/internal/k8s/controller.go:202-392 | and with the service executed with the latest generation of exactly the resources whose placeholders can be replaced |
| Reconcile.Delivery | controller/internal/k8s/controller.go:387-392 | across a delivery the generation differs iff it contains a spec change, and the resource version always grows |
| WorkQueue.AddIsSound | controller/internal/k8s/controller.go:332-340 | adding keeps the queue's discipline and leaves the key dirty |
| WorkQueue.GetIsSound | controller/internal/k8s/controller.go:203 | a key that is handed out was dirty and not being processed |
| WorkQueue.DoneIsSound | controller/internal/k8s/controller.go:217 | releasing a key keeps the queue's discipline |
| Controller.SplitKeyOf | controller/internal/k8s/controller.go:262 | the key of a resource leads back to its namespace and name |
| Controller.WhenKeysSplit | controller/internal/k8s/controller.go:262-266 | a key cannot be split iff it has two slashes, and otherwise its two parts make it up, the first being empty if there is no slash |
| Controller.Controller.SyncHandler | controller/internal/k8s/controller.go:260-309 | an error iff the lookup fails other than by absence; the service runs once, on the replaced spec, iff the resource exists and can be replaced, and then the status write is attempted with the right message; otherwise nothing changes |
| Controller.Controller.UpdateStatus | controller/internal/k8s/controller.go:311-327 | changes at most the status and resource version of one object, and only if it is the one that was read |
| Controller.Controller.ProcessNextWorkItem | controller/internal/k8s/controller.go:202-254 | one Get, one Done on every path, and between them AddRateLimited iff the lookup failed, else Forget; the queue after it; and the sync that its key calls for |
| Controller.Controller.CreateCustomResource | controller/internal/k8s/controller.go:344-352 | enqueues the key of every resource |
| Controller.Controller.UpdateCustomResource | controller/internal/k8s/controller.go:356-369 | enqueues iff the hour is a multiple of the period and the minute is zero, or both generation and resource version differ, with zero objects for what cannot be converted; this is when the machine's handler does |
| Controller.Controller.DeleteRestStrategyCustomResource | controller/internal/k8s/controller.go:371-373 | a deletion enqueues nothing, as in the machine |
| Refinement.ProcessInTheMachine | controller/internal/k8s/controller.go:202-309 | one call of processNextWorkItem is a run of the machine's steps from Take to Release on the same queue, lister and API server: a failed lookup, an execution of the service, a dropped spec and a status write happen in the one exactly when they happen in the other |
| Resync.GapsAreBounded | controller/internal/k8s/controller.go:381-384 | consecutive matching hours are at most min(period, 24) hours apart |
| Resync.WhenDue | controller/internal/k8s/controller.go:381-384 | a resync is due in the first minute of a matching hour and at no other time |
| Resync.NoneDueBetween | controller/internal/k8s/controller.go:381-384 | none is due from the end of that minute until the next matching hour |
| Resync.DueTicksAreApart | controller/internal/k8s/controller.go:375-384 | if the period divides 24, due ticks of different hours are at least the period apart, less a minute |
| Resync.EveryWindowHasATick | controller/internal/k8s/k8s.go:59 | with a tick every 60 seconds at any phase, every window of min(period, 24) hours holds a tick that enqueues |
| Resync.WhenThePeriodIsKept | controller/internal/k8s/controller.go:375-384 | consecutive matching hours are always exactly the period apart iff it divides 24 |
| DeepCopy.ActionVar.DeepCopyInto | seeder/zz_generated.deepcopy.go:21-92 | the copy equals the source in value and reaches only new storage |
| DeepCopy.ActionVar.DeepCopy | seeder/zz_generated.deepcopy.go:95-102 | the same for a new variable |
| DeepCopy.CopyValue | seeder/rest.go:96-103 | nested JSON maps and lists are copied at every depth into new storage |
| DeepCopy.CopyLists | seeder/zz_generated.deepcopy.go:26-41 | a map of slices is copied slice by slice, nil ones as nil |
| Copies.CopyOAuth | seeder/zz_generated.deepcopy.go:153-186 | scopes, parameters and pointers of an OAuth configuration are copied into new storage |
| Copies.CopyAuth | seeder/zz_generated.deepcopy.go:105-118 | both pointers of an auth configuration are copied at every depth |
| Copies.CopyAuthMap | seeder/zz_generated.deepcopy.go:131-140 | the same keys, equal values, new storage |
| Copies.CopySeeders | seeder/zz_generated.deepcopy.go:216-225 | the same keys, equal actions, new storage |
| Resource.CopyRestStrategy | apis/reststrategy/v1alpha1/zz_generated.deepcopy.go:34-51 | the copy of a whole resource, with its lists of seeders and auth entries, has the same value and reaches only new storage |
| SameValues.ActionsTell | seeder/zz_generated.deepcopy.go:21-92 | two actions have the same value iff each of their references is nil in both or in neither and holds the same, with nested JSON compared at every depth |
| SameValues.AuthsTell | seeder/zz_generated.deepcopy.go:105-186 | the same for auth configurations |
| SameValues.ResourcesTell | apis/reststrategy/v1alpha1/zz_generated.deepcopy.go:34-51 | two resources have the same value iff they agree in metadata, status and entry by entry |
| Resource.CopyThenEdit | controller/internal/k8s/controller.go:282 | no sequence of edits of a copy changes the original, whether to elements or entries of headers, scopes, endpoint parameters, runtime variables, HTTP headers, suffixes, order, OAuth logins, nested variables and credentials at any depth (objects and lists), list elements or the status; and the copy has the status that was set last |

## Left out

- HTTP transport, OAuth and custom token exchange, header encoding: a request is a verb, host, path, query and body; `header` and `authMapRef` are not read by the engine model, and the auth map is only kept.
- Internals of ajson, envsubst, strconv.Unquote, net/url, configmanager and yaml: total functions that are parameters of the model. Values in templates are strings; the formatting of other values is not modelled.
- POST, PUT, PATCH and DELETE requests that cannot be built: the code logs the error and goes on with a nil request, so a well-formed endpoint is taken for granted there. A GET that cannot be built is modelled.
- The text of the error that Execute joins: the model returns the list. The request takes the place of the text `HostPathMethod`.
- Sharing of the `errs` backing array between Execute and performAction: appending copies in the model; the code's overlapping copy has the same result.
- Concurrency on the process environment and the lock around captured variables: `os.Setenv` is global, so variable resolution is proved for sequential runs only.
- GET/POST in the theorems about stores: it creates only on a success with an empty body, which the modelled store does not give.
- Retry.RetriesComplete: listings that hide an item, expressions that no longer match an item once the action has changed it, and merges that are not idempotent are excluded by its hypotheses.
- Guidance.GuidedHistory: the needs of an action and what its requests reach once they are met are given; that a service shows the same id in every run is shown for one plan (PassingIds.dfy) only. An action whose payload holds what its own GET has captured has no fixed content, and so no target in these theorems; its requests are those of Steady.PerformIsDrive.
- Confluence.OrderConfluence: ids of new items must follow from their content and no request fails; for ids that the server chooses and for runs with failures see Convergence.RunsInAnyOrderAgree.
- Convergence.SeedingConverges: FIND/DELETE/POST and actions that post whatever there is create a new id in every run; for the former the outcome is fixed up to that id by Convergence.SuccessfulHistoriesAgree.
- Stains.StainsDoNotMatter, Stains.TurnsDoNotMatter: with a configmanager that is not tolerant, captured values left in a map are part of what is replaced later.
- Seeder.StrategyRestSeeder.SortActions: an insertion sort stands for slices.SortFunc; its contract leaves the order of equal actions open.
- Controller.Controller.SyncHandler: the service is an arbitrary function of the target's state and the replaced spec; event recording and logging are not modelled.
- Controller.RateLimitingQueue.Get: blocking is a precondition.
- Informer, lister and rate limiter internals, their timing and any fairness: steps of the environment, in any order. A deletion followed by a creation arrives as two deliveries.
- Resync: the clock does not jump, so changes to daylight saving time are not covered, and the period is at least 1.
- Struct fields that hold no reference: `plain` and `Plain` stand for them; StrategyConfig.DeepCopyInto combines the two map copies and adds nothing.
- Command line, configuration files, signals, generated clients and CRDs.
