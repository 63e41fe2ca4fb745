# A verified model of the InfluxDB operator

The operator turns custom resources (Organizations, Tokens, Buckets) into organizations,
authorizations and buckets on an InfluxDB server. Its three reconcilers drive two stores,
the Kubernetes API and InfluxDB, over which no transaction spans, with calls any of which
can fail, take effect and look failed, or be the last before a crash, and they start from
reads that may be stale. This project models the reconcilers, the two servers, users and
outsiders, and proves what the finalizer and status protocol achieves.

## How it is built

`Protocol.dfy` is the operator as a state machine. `Fire` is one remote call of one pass
together with the local computation that follows it; `Apply` adds users working on custom
resources, outsiders working on configs, secrets and the server, and crashes; `Run` is any
interleaving of those. `Types`, `Tables`, `Descriptions` and `Admission` hold the entities,
the server tables (rows are never reused, so the proofs can speak of who created and who
removed a row), the description of authorizations and the webhooks.

Over all runs: `Lines` (the history of one custom resource and the pass in flight),
`Safety` (the global invariant), `Finalizers` (write-ahead finalizer, no leak), `Tokens`
(at most one authorization, no interference, ready only after the fact), `Grants` (what
authorizations are called and allow), `Publishing` (where tokens go and what is left alone),
`StatusAutomaton`, `DataIrrelevance`, `Guards` (what the webhooks admit, and what that
guarantees at the far end), `PassShape` (one write per pass, the timed requeue),
`Environment` (what all of this has to put up with).

Over undisturbed passes, which are shown to be runs: `Passes`, `Deletion` (the exact number
of passes, and what failures do to it), `Healing` (three passes to the fixpoint),
`Convergence` (the documented chain of three resources), `Records` (what is written into
the status, field by field), `Leaks` (exactly what a teardown
overlooks, and a run that leaks).

In the form of the source: `Servers` has the two servers and the remote calls as a class
whose log is a run of the machine, with the choices of the environment as an input;
`Reconcilers` has the phases as methods over a mutable object, with their loops and early
exits, up to `Reconcile`. Every call says what it does to the servers, as a function of the
state in which it arrives and of how it turns out, and extends the log by what others did and
one step of its pass. Because the log stays a run that explains the state of the servers, all
theorems about runs hold of the methods; and because `Reconcile`, undisturbed, does what the
undisturbed pass of the machine does, so do those about passes. `Limiter` (rate limiter) and
`DeepCopy` (generated copies, on the heap) stand on their own.

Phases that the three controllers repeat word for word are written once; the calls and the
order of calls are those of each controller.

## Assumptions

- Passes for one key are serialized. Reads of a custom resource may lag behind but never
  go back for one key; other reads are up to date.
- An update or status update of a custom resource, and the update of a secret, succeed only
  on the version that was read. An object with a deletion mark disappears when its
  finalizer goes. Nobody but the operator writes the finalizer or the status.
- InfluxDB lists everything it has, at once and never as nil, and always sends ids.
- A failed call has either taken effect already or never will.
- On creating a bucket or an organization, status 422 means exactly that the name is taken.
- Namespaces and uids contain no dots, and uids are never used twice. There is one
  InfluxDB server.
- A crash is the end of a pass between two calls; in `Servers` a pass that is cut short
  shows as one whose next call is refused.
- Times are natural numbers. `time.Now` in a pass gives the time of its latest call.
- "Undisturbed" passes start from an up-to-date read, all their calls are answered, and
  nobody else acts meanwhile. Each pass has a time and a token of its own that the server
  would issue; within one pass each is used at most once.
- For healing and convergence: the server shows the token of the authorization with the
  Token's description (of every one with it, for the chain) when it lists it. Otherwise the
  pass fails.
- The Organization, Token and Bucket of the chain are in one namespace, and their configs
  stay as they are. The last config of the documented manifest gives no secret namespace;
  the chain takes it to be the one in which the Token publishes.

## What the proofs brought up

- No leak needs the config to stay put while the operator has something on the server.
  `Leaks.LeaksExactlyWhen` says exactly when a teardown pass leaks, and
  `Leaks.LeakIsReachable` is a run in which nothing fails and that leaks: the config has come
  to name another organization.
- No undisturbed pass finalizes a Bucket as long as its config exists and the organization does
  not (`Leaks.BucketGoesExactlyWhen`), unlike a Token or an Organization: the missing
  organization is an error there (`controllers/bucket_controller_impl.go:115-118`).
- The status written when a Token first becomes ready drops the token id; it is recorded only
  when the authorization has to be created again (`controllers/token_controller_impl.go:605-610`).
  By `DataIrrelevance.RunsAlike` this does not matter.
- A deletion that takes effect but whose reply is lost costs no extra pass: it brings the end
  exactly as much closer as an answered one (`Deletion.DeleteCallCounts`), since the next pass
  lists again.

## Model

| member | source | states |
|---|---|---|
| `Finalizers.NoLeak` | controllers/token_controller_impl.go:57-225 | if, from the creation of an incarnation until it has disappeared, its config whenever it is there leads to one organization, which may be created later than the incarnation, and config and organization are otherwise missing only while the operator has nothing on the server for it, then nothing the operator created for it is left, and nothing is created for it ever after, over every continuation and whatever then happens to the config; what ran before, and whether the organization existed then, is arbitrary |
| `Finalizers.WriteAheadFinalizer` | controllers/token_controller_impl.go:211-310 | under the same condition on the config, from the creation of the incarnation on, everything the operator created for it and that is still on the server belongs to a custom resource that exists and still carries the finalizer; holds in the middle of passes, with stale reads, lost replies, crashes and deletion at any point |
| `Finalizers.RunKeepsBound` | controllers/token_controller_impl.go:57-241 | the invariant behind the two rows above, for one incarnation, is kept by every run in which its config stays put: what it owns lies in the one organization and is held by the finalizer, and a pass for it is about to drop the finalizer only when it owns nothing |
| `Finalizers.DropOnlyWhenNothingShows` | controllers/bucket_controller_impl.go:71-161 | a pass decides to drop the finalizer if and only if one of these holds: the config is missing; the organization is missing (never accepted for a Bucket); the listing shows no authorization with the description, or no bucket with the name |
| `Finalizers.ListingShowsClear` | controllers/token_controller_impl.go:154-166 | in a reachable state, when nothing in the organization carries the title of a resource, the operator has nothing there that belongs to it |
| `Finalizers.RetiredStaysClear` | controllers/bucket_controller_impl.go:201-215 | once an incarnation is gone (or a pass has read its deletion mark), no pass creates anything for it in any continuation, however far the reader lags |
| `Lines.FireKeepsLine` | controllers/token_controller.go:73-118 | the version history and the pass in flight keep fitting together under every call: deletion mark and finalizer never go back within an incarnation, and as long as a working version can still be read its incarnation holds the finalizer |
| `Lines.UserKeepsLine` | controllers/token_controller.go:71-96 | the same under creation, update and deletion by users, at any moment of a pass |
| `Lines.GoneIsRetired` | controllers/token_controller.go:57-69 | an incarnation that no longer exists is one for which no later pass, stale or not, can create anything |
| `Lines.DeletingIsRetired` | controllers/token_controller.go:71-96 | so is an incarnation whose deletion mark a pass has read |
| `Safety.RunKeepsInv` | controllers/token_controller_impl.go:57-632 | the global invariant (histories, numbers held by passes, titles of created rows, at most one live authorization per owner and organization, removals only for retired incarnations) holds after every run from every state in which it held |
| `Safety.FireTables` | controllers/token_controller_impl.go:154-172 | one call of a pass leaves each server table alone, adds one row of its own incarnation in the organization it looked up, or removes one live row that carries its own title |
| `Safety.RemovalIsOwn` | controllers/token_controller_impl.go:154-172 | an authorization of the operator that a pass removes belongs to the incarnation the pass works for, and that incarnation is retired |
| `Safety.InsertKeepsAtMostOne` | controllers/token_controller_impl.go:453-472 | creating an authorization keeps the bound of one, provided outsiders removed every earlier one of that owner in that organization |
| `Tokens.AtMostOneEver` | controllers/token_controller_impl.go:384-499 | over every run, the authorizations the operator created for one incarnation of a Token in one organization number at most one plus those that somebody else removed, lost replies and retargeted configs included |
| `Grants.AuthorizationsAsAsked` | controllers/token_controller_impl.go:418-472 | over all runs, every authorization the operator ever created carries the description of its Token, and its grants are, one by one and in order, the permissions of some version of that incarnation: same action, type and name, tied to the organization it was created in, except those of type orgs, which are tied to none |
| `Grants.NewAuthorizationIsAsked` | controllers/token_controller_impl.go:418-472 | the create call carries what the version that was read asks for |
| `Grants.RunKeepsAuthRows` | controllers/token_controller_impl.go:418-472 | the invariant behind it holds after every run from every state in which it held |
| `Tokens.NonInterference` | controllers/token_controller_impl.go:396-418 | in every reachable state no call of a pass creates, removes, publishes or settles on an authorization made for another Token or another incarnation |
| `Tokens.TokenIdIsOwn` | controllers/token_controller_impl.go:319-323 | the authorization a pass goes on with is its own incarnation's, if the operator made it at all; the recorded token id plays no part |
| `Tokens.ReadyOnlyAfterTheFact` | controllers/token_controller_impl.go:501-618 | a Token's phase becomes ready only while the secret that its spec names, in its own namespace, holds under `token` the token of the authorization the pass has settled on by its search or its create call, whose description is name, namespace and uid joined by dots; assumes nobody else writes that secret between the last call on it and the status write |
| `PassShape.SettlesBySearch` | controllers/token_controller_impl.go:396-499 | a pass settles on an authorization, to publish or to delete it, by its search or its create call only, and remembers which of the two it was |
| `Tokens.SecretCallsLeaveItReady` | controllers/token_controller_impl.go:539-582 | each of the three ways through the secret (created, found right, updated) leaves the token in hand in the secret before the status is written |
| `Publishing.OnlyNamedSecretIsWritten` | controllers/token_controller_impl.go:501-582 | a call changes a secret only when it creates or updates the one the Token's spec names, in the Token's namespace; then the token is the only entry in it, an update finds the version that was read and a creation finds none |
| `Publishing.ListingDecides` | controllers/token_controller_impl.go:396-418 | the search leads a live Token with the token of the first match on to its secret, to an error when the server does not show that token, and to the create call when nothing matches |
| `Publishing.ReadDecides` | controllers/token_controller_impl.go:570-575 | the read of the secret leads to an update if and only if the secret has no data or its entry `token`, empty when missing, is another one |
| `Publishing.SecretsAfterPass` | controllers/token_controller_impl.go:501-582 | the secrets after a working pass, whole: unchanged when the named one has data and the token of the authorization; otherwise that one alone is replaced, with that token as its only entry |
| `Publishing.RightSecretIsLeftAlone` | controllers/token_controller_impl.go:570 | a pass leaves a secret with the right token alone, whatever else it holds |
| `Publishing.UpdatesOverwriteNothingRight` | controllers/token_controller_impl.go:561-580 | in every run an accepted update of a secret finds one that is not right, however others work on it between the read and the update |
| `Tokens.CreatedAtMostLostPlusOne` | controllers/token_controller_impl.go:384-499 | the counting step: a table in which outsiders removed all but the latest row of each owner and organization holds at most one more than was removed |
| `Descriptions.DescriptionInjective` | controllers/token_controller_impl.go:634-636 | for dot-free namespaces and uids the description determines name, namespace and uid, dots in names or not |
| `Descriptions.DescriptionCollides` | controllers/token_controller_impl.go:634-636 | with a dot in a namespace or a uid two different Tokens share a description, by example |
| `Descriptions.DescriptionFormat` | controllers/token_controller_impl.go:634-636 | the format of the description, on two literal examples |
| `StatusAutomaton.StatusOverRuns` | controllers/bucket_controller_impl.go:38-52 | over every run the phase of an incarnation only moves forward through unset, pending, ready, terminating; its condition reasons are only appended to; every version's reasons are a duplicate-free subsequence of finalizerAdded, created, deleted in which created implies finalizerAdded; phase and log determine the reason of the status, and only a ready Token records data |
| `StatusAutomaton.RunKeepsStatusInv` | controllers/bucket_controller_impl.go:165-190 | the invariant behind it, including what a pass in flight is about to write, holds after every run |
| `StatusAutomaton.FinishForward` | controllers/bucket_controller_impl.go:416-447 | the status the end of ReconcileResources writes is a successor of the status that was read, and its phase is ready |
| `StatusAutomaton.TeardownForward` | controllers/bucket_controller_impl.go:165-190 | the status the end of FinalizeResources writes is a successor of the status that was read, and stays terminating |
| `Records.CreationRecorded` | controllers/token_controller_impl.go:584-632 | what a working pass records, field by field: the first time a created condition is appended, with its reason and no data; if the artefact was missing although creation is recorded, the first created condition gets the time of the call and a Token records the number its authorization now has, the rest staying; otherwise nothing is written |
| `Records.RemovalRecorded` | controllers/token_controller_impl.go:174-208 | a pass that removes an artefact appends a deleted condition with its reason and drops the data, or refreshes the first one that is there and changes nothing else |
| `Records.TerminatingStatusRecorded` | controllers/token_controller_impl.go:37-52 | the first pass over a deleted resource writes phase and reason, keeps the conditions and drops the data, and changes nothing else |
| `Records.FirstStatus` | controllers/token_controller_impl.go:259-291 | the first status of a resource, literally, and nothing else |
| `Records.TouchRefreshes` | controllers/token_controller_impl.go:177-183 | refreshing a condition gives the first one with the reason the new time and leaves all others alone |
| `Deletion.DeletionTakesExactly` | controllers/token_controller_impl.go:57-225 | a deleted resource with k artefacts under its title, duplicates included, disappears after exactly k + 2 undisturbed passes (k + 1 when already terminating), and not before, each pass at its own time |
| `Deletion.TeardownPass` | controllers/token_controller.go:71-96 | one undisturbed pass brings deletion exactly one pass closer to its end |
| `Deletion.FailuresNeverRaiseRemaining` | controllers/token_controller.go:71-96 | once the deletion mark has been read, no single call, refused, answered or with its reply lost, raises the number of passes deletion still takes |
| `Deletion.DeleteCallCounts` | controllers/token_controller_impl.go:168-171 | a delete call that reaches the server lowers the number of passes deletion still takes by exactly one, whether its reply arrives or is lost; a refused one leaves it alone |
| `Deletion.RunNeverRaisesRemaining` | controllers/token_controller.go:71-96 | over every run that starts after the deletion mark has been read and in which nobody else adds something under the title of the resource, whatever fails, that number never rises |
| `Deletion.RemovingPass` | controllers/token_controller_impl.go:154-208 | a pass over a terminating resource with something left removes exactly the first of it and records that, and changes nothing else |
| `Deletion.DroppingPass` | controllers/token_controller_impl.go:211-225 | a pass over a terminating resource with nothing left makes it disappear and changes nothing else |
| `Deletion.IdlePass` | controllers/token_controller.go:71-96 | a pass over a deleted resource without the finalizer, or over none, changes nothing and ends without an error |
| `Healing.ThreePassesHeal` | controllers/token_controller.go:98-125 | from any state of a resource that is not being deleted, with its artefact or secret removed or altered by others, at most three undisturbed passes, each at its own time and with its own answers, reach the fixpoint |
| `Healing.HealingPass` | controllers/token_controller.go:98-125 | before the fixpoint every undisturbed pass comes strictly closer; at it a pass changes neither store and asks to come back in a minute; the surroundings stay in place |
| `Healing.WorkingPass` | controllers/token_controller_impl.go:296-632 | what one working pass does to both stores, as a whole: the artefact created if missing, the secret brought up to date, the status written exactly when creation was not recorded or something was created |
| `Healing.BlockedPass` | controllers/bucket_controller_impl.go:302-357 | a pass whose config, credential or organization is missing fails and leaves both stores alone |
| `Healing.SecretWork` | controllers/token_controller_impl.go:501-582 | the calls on the secret end with the secret holding the token and with a write only when it did not |
| `Healing.RepairedIsRight` | controllers/token_controller_impl.go:384-582 | after the work of a pass the artefact is found and the secret holds its token |
| `Convergence.ChainConverges` | README.md:116-179 | from any state of the documented chain of Organization, Token and Bucket, nine fair rounds of passes in whatever order, each pass at its own time and with its own answers, make all three ready, with organization, authorization and bucket on the server and the secret right; and the rounds are a run of the machine |
| `Convergence.AtMostNineLowerings` | README.md:116-179 | however long the schedule and in whatever order, at most nine passes lower the summed distance of the chain; by the next row the others change neither store |
| `Convergence.PassNeverRaisesTotal` | controllers/bucket_controller_impl.go:286-461 | an undisturbed pass of one of the three either leaves both stores alone or lowers the summed distance of the chain |
| `Convergence.RoundsAreRun` | README.md:116-179 | rounds of undisturbed passes of the chain are a run of the machine |
| `Convergence.SomebodyCanMove` | README.md:116-179 | while the summed distance is positive, one of the three can lower it |
| `Convergence.ChainBlocked` | README.md:116-179 | within the chain a resource is blocked exactly when it is not the Organization and the organization is missing, or it is the Bucket and the Token's secret is missing |
| `DataIrrelevance.RunsAlike` | controllers/token_controller_impl.go:71-76 | two runs with the same actions from states that differ only in recorded token ids stay alike: same InfluxDB, same secrets, same calls, same versions but for the recorded id; in particular the id a pass deletes or publishes is the same in both |
| `DataIrrelevance.FireAlike` | controllers/token_controller_impl.go:319-323 | one call does the same whatever token id was recorded, and the search and the create call overwrite it before it is used |
| `PassShape.OneWritePerPass` | controllers/token_controller.go:54-125 | over any run with any failures, the writes to a resource by its passes, plus the pass in flight, number at most the passes begun |
| `PassShape.WriteEndsPass` | controllers/error.go:15-23 | the call that writes the resource is the last of its pass; answered, the pass ends without an error and without a timed requeue |
| `PassShape.TimedRequeueExactlyWhen` | controllers/token_controller.go:120-124 | a call ends its pass with the timed requeue if and only if it is answered, creation is recorded, and it is a create call on a taken name, or a call on the secret that succeeds or finds nothing to write, in a pass that did not create the authorization |
| `PassShape.CreatedIsRemembered` | controllers/token_controller_impl.go:490-499 | at its calls on the secret a pass remembers exactly whether it created the authorization |
| `Leaks.TeardownDropsExactlyWhen` | controllers/bucket_controller_impl.go:71-161 | an undisturbed pass over a terminating resource makes it disappear if and only if the config is missing, or the credential is there and the organization is missing (not for a Bucket) or shows nothing with its title |
| `Leaks.RetargetedConfigLeaks` | controllers/token_controller_impl.go:81-166 | a Token whose config has come to name another organization goes with its next pass, and its authorization in the old one stays |
| `Leaks.LeaksExactlyWhen` | controllers/token_controller_impl.go:81-166 | for every kind: an undisturbed pass over a terminating resource makes it disappear and leaves behind something the operator created for it if and only if there was such a thing and the teardown takes what it sees for nothing |
| `Leaks.LeakIsReachable` | controllers/token_controller_impl.go:81-166 | a run from an initial state in which nothing fails, and at whose end a Token has disappeared and its authorization is still there |
| `Leaks.BucketGoesExactlyWhen` | controllers/bucket_controller_impl.go:71-161 | a terminating Bucket goes if and only if the `default` config is missing, or credential and organization are there and the organization has no bucket of its name; while the config exists and the organization does not, its pass fails and changes nothing |
| `Leaks.UnpreparedTeardown` | controllers/token_controller_impl.go:81-131 | a teardown without config, credential or organization changes nothing on the server, and either skips or fails |
| `Guards.RetentionReachesInflux` | api/v1beta1/bucket_webhook.go:56-85 | over all admitted creations and updates and all runs, every bucket the operator created was created with a retention of zero or at least 3600 and with the retention and description of every version of its resource; which creations and updates are admitted is in the rows below |
| `Guards.CreatedExactlyWhen` | api/v1beta1/bucket_webhook.go:56-65 | for a free key, a new uid and a namespace without dots, a resource is created, as it was sent, if and only if: a Bucket has retention zero or at least 3600, an Organization is not called `influxdata`, a Token's permission and resource types are all in the tables, written out |
| `Guards.UpdatedExactlyWhen` | api/v1beta1/bucket_webhook.go:67-85 | an update is accepted, and changes the spec alone, if and only if it is not of a Bucket or keeps its retention and description |
| `Guards.DeletedExactlyWhen` | controllers/token_controller.go:69-71 | a deletion marks a resource with the finalizer, once, and removes any other |
| `Guards.NewBucketIsBacked` | controllers/bucket_controller_impl.go:369-391 | the create call carries what the version that was read asks for |
| `Guards.DeletesOwnOrganizationOnly` | controllers/organization_controller_impl.go:105-132 | in every reachable state a pass that removes an organization is the pass of an Organization with exactly that name, and the name is not the reserved one |
| `Guards.ReservedOrganizationSurvives` | api/v1beta1/organization_webhook.go:58-68 | the organization `influxdata` survives every run in which no outsider removes it |
| `Reconcilers.Reconciler.Reconcile` | controllers/token_controller.go:54-125 | one pass of the controller in the form of the source: whatever the environment does, what it leaves in the log is a run of the state machine with exactly one pass for the key, its result is the one the machine arrives at, and it makes at most one write to the resource; if it reads the latest version and nothing disturbs it, the state it leaves is that of the undisturbed pass, so that deletion, healing and convergence hold of it |
| `Reconcilers.Reconciler.RunPass` | controllers/token_controller.go:57-69 | the read and what follows; undisturbed, the log grows by the latest read and answered calls of this pass only |
| `Reconcilers.Reconciler.ReconcileVersion` | controllers/token_controller.go:71-125 | from the version that was read to the result at which the machine ends the pass |
| `Reconcilers.PassesInheritSafety` | controllers/token_controller.go:54-125 | after any number of such passes the global invariant and the bound of one authorization hold of the two servers |
| `Reconcilers.Reconciler.ReconcileLive` | controllers/token_controller.go:98-125 | the three phases for a live resource, in order, each ending the pass on a signal |
| `Reconcilers.Reconciler.ReconcileDeleted` | controllers/token_controller.go:71-96 | the three phases for a deleted resource |
| `Reconcilers.Reconciler.FinalizeStatus` | controllers/token_controller_impl.go:23-55 | nil exactly when there is no finalizer or the phase is terminating, with everything left alone; otherwise the terminating status, with the conditions kept, was sent as the last call, and the signal says whether the server accepted it |
| `Reconcilers.Reconciler.FinalizeToken` | controllers/token_controller_impl.go:57-150 | nil exactly on the way to dropping the finalizer, with the object untouched; a signal means the pass is over with that result |
| `Reconcilers.Reconciler.DeleteAuthorization` | controllers/token_controller_impl.go:141-171 | found means that the operator has just removed an authorization with the description in the organization, missing that the listing shows none; anything else ends the pass |
| `Reconcilers.Reconciler.FindAuthorization` | controllers/token_controller_impl.go:141-166 | what is found is the first listed authorization with the description, and its id replaces the recorded one |
| `Reconcilers.Reconciler.FinalizeBucket` | controllers/bucket_controller_impl.go:57-137 | the same for buckets, where a missing organization is an error |
| `Reconcilers.Reconciler.DeleteBucket` | controllers/bucket_controller_impl.go:139-161 | found means that the operator has just removed a bucket of that name in the organization, missing that the listing shows none; anything else ends the pass |
| `Reconcilers.Reconciler.FindBucket` | controllers/bucket_controller_impl.go:139-156 | what is found is the first listed bucket of that name |
| `Reconcilers.Reconciler.FinalizeOrganization` | controllers/organization_controller_impl.go:57-127 | the same for organizations, which are looked up by the name of the resource |
| `Reconcilers.Reconciler.DeleteOrganization` | controllers/organization_controller_impl.go:71-132 | found means that the operator has just removed an organization of the resource's name, missing that the teardown skips the deletion; anything else ends the pass |
| `Reconcilers.Reconciler.FindOwnOrganization` | controllers/organization_controller_impl.go:71-127 | the organization is looked up by the resource's own name, whatever the config names |
| `Reconcilers.Reconciler.RemoveFinalizer` | controllers/token_controller_impl.go:211-225 | nil exactly when there was no finalizer; otherwise the resource without it was sent as the last call, and the signal says whether the server accepted it |
| `Reconcilers.Reconciler.AddFinalizer` | controllers/token_controller_impl.go:227-241 | nil exactly when the finalizer was there; otherwise the resource with it was sent as the last call, and the signal says whether the server accepted it |
| `Reconcilers.Reconciler.InitializeStatus` | controllers/token_controller_impl.go:243-294 | nil exactly when a finalizerAdded condition is there; otherwise the pending status with that one condition was sent as the last call, and the signal says whether the server accepted it |
| `Reconcilers.Reconciler.ReadConfig` | controllers/token_controller_impl.go:80-109 | config, then credential; only a missing config is told from other failures |
| `Reconcilers.Reconciler.ReconcileToken` | controllers/token_controller_impl.go:296-378 | nil means the pass ends with the timed requeue; a missing config, credential or organization is an error |
| `Reconcilers.Reconciler.ReachOrganization` | controllers/token_controller_impl.go:328-378 | config, credential and the organization the config names, or the pass ends with an error |
| `Reconcilers.Reconciler.ReconcileAuthorization` | controllers/token_controller_impl.go:384-632 | obtain, publish, record: nil means the pass ends with the timed requeue, and every failure ends it with an error |
| `Reconcilers.Reconciler.ObtainAuthorization` | controllers/token_controller_impl.go:384-499 | on success the server has an authorization with the description in the organization that shows this token under this id: the first one listed, or one just created |
| `Reconcilers.Reconciler.CreateAuthorization` | controllers/token_controller_impl.go:418-499 | on success the new authorization is there with the description and the token that was issued |
| `Reconcilers.Reconciler.BuildPermissions` | controllers/token_controller_impl.go:420-451 | the grants sent are the specified permissions in order, field by field, each tied to the organization except those of type orgs |
| `Reconcilers.Reconciler.SynchronizeSecret` | controllers/token_controller_impl.go:501-582 | on success the secret named by the spec, in the Token's namespace, is there, has data, and its entry `token` is the token; anything else ends the pass |
| `Reconcilers.Reconciler.RefreshSecret` | controllers/token_controller_impl.go:558-582 | a secret that is read with the token under `token`, whatever else it holds, is left alone; on success one without data or with another token has been replaced, if it is still the version that was read, by one with that entry only |
| `Reconcilers.Reconciler.ReconcileBucket` | controllers/bucket_controller_impl.go:286-415 | as for Tokens; a taken name counts as success without creation |
| `Reconcilers.Reconciler.EnsureBucket` | controllers/bucket_controller_impl.go:366-461 | nil means that a bucket of that name is there and the pass ends with the timed requeue |
| `Reconcilers.Reconciler.ReconcileOrganization` | controllers/organization_controller_impl.go:257-347 | as for Buckets; the configured organization must be there too |
| `Reconcilers.Reconciler.EnsureOrganization` | controllers/organization_controller_impl.go:309-393 | nil means that an organization of that name is there and the pass ends with the timed requeue |
| `Reconcilers.Reconciler.RecordDeletion` | controllers/token_controller_impl.go:174-208 | the status sent is the one read with the first deleted condition refreshed, or with one appended and its reason and message set; the signal says whether the server accepted it |
| `Reconcilers.Reconciler.RecordCreation` | controllers/token_controller_impl.go:584-632 | nil, with no call made, exactly when creation is recorded and nothing was created; otherwise the status of the machine's next write was sent, which `Records.CreationRecorded` gives field by field, and the signal says whether the server accepted it |
| `Reconcilers.Reconciler.Search` | controllers/token_controller_impl.go:153-161 | the loop stops at the first listed row with the title, and finds none exactly when there is none |
| `Reconcilers.CustomResource.TouchCondition` | controllers/token_controller_impl.go:177-183 | only the transition time of the first condition with the reason changes |
| `Reconcilers.CustomResource.HasCondition` | controllers/token_controller_impl.go:260-266 | whether a condition with the reason is there |
| `Servers.World.Conclude` | controllers/token_controller.go:54-125 | once the stores show the effect of a call of a pass, the log is what it was, then what others did, then one step of that pass, and it explains the state of the servers |
| `Servers.World.Interlude` | controllers/token_controller.go:54-125 | what happens before a call are actions of others only; they leave the pass and how far its reader has got alone, and never take back or change a row |
| `Servers.World.ActAll` | controllers/token_controller.go:54-125 | what the environment chose happens, in order, but for steps of the pass itself |
| `Environment.FailuresMayTakeEffect` | controllers/token_controller_impl.go:453-489 | a call whose reply is lost has the whole effect of an answered one, a refused one none, and both look like failures |
| `Environment.ReadsMayLag` | controllers/token_controller.go:57-69 | a pass may begin with any version not older than what its reader has seen |
| `Servers.World.GetConfig` | controllers/token_controller_impl.go:80-94 | the config of that name when the call arrived, or missing; only a missing config is told from a failed call |
| `Servers.World.GetCredential` | controllers/token_controller_impl.go:96-109 | the secret of that name when the call arrived; a pass goes on only if it is there |
| `Servers.World.FindOrganizationByName` | controllers/token_controller_impl.go:115-133 | the first organization of that name when the call arrived, or missing, which a teardown of a Token or an Organization takes for done |
| `Servers.World.GetSecret` | controllers/token_controller_impl.go:561-573 | the secret of that name when the call arrived |
| `Servers.World.GetResource` | controllers/token_controller.go:57-69 | some version that is not older than any the key's passes have seen, or that there is none at that version, or an error; the pass begins from what was read |
| `Servers.World.SaveResource` | controllers/token_controller_impl.go:202-208 | Update and Status().Update are accepted exactly when the version that was read is still the stored one and the reply arrives; then, or with a lost reply, there is one version more, with only the metadata or only the status changed, or none if a deleted resource has lost its finalizer; nothing else changes |
| `Servers.World.CreateAuthorization` | controllers/token_controller_impl.go:453-499 | adds a row with this description, these permissions and a token of the server's choosing whenever it reaches the server, whatever is there already; answered, it gives its number and token; a failed call may have added it; nothing else changes |
| `Servers.World.FindAuthorizationsByOrgID` | controllers/token_controller_impl.go:384-394 | all live authorizations of the organization when the call arrived, and the machine goes where searching them leads |
| `Servers.World.FindBucketsByOrgID` | controllers/bucket_controller_impl.go:139-143 | all live buckets of the organization when the call arrived, and the machine goes where searching them leads |
| `Servers.World.DeleteAuthorizationWithID` | controllers/token_controller_impl.go:168-171 | succeeds exactly when the authorization was there and the reply arrives; reaching the server, it removes that one and changes nothing else |
| `Servers.World.DeleteBucketWithID` | controllers/bucket_controller_impl.go:158-161 | the same for a bucket |
| `Servers.World.DeleteOrganizationWithID` | controllers/organization_controller_impl.go:129-132 | the same for an organization |
| `Servers.World.CreateSecret` | controllers/token_controller_impl.go:539-556 | missing means exactly that a secret of that name exists; otherwise, if the call reaches the server, it creates the secret with this data; nothing else changes |
| `Servers.World.UpdateSecret` | controllers/token_controller_impl.go:575-580 | succeeds exactly when the secret is still the one that was read and the reply arrives; if it is and the call reaches the server, the data is replaced; nothing else changes |
| `Servers.World.CreateBucket` | controllers/bucket_controller_impl.go:369-415 | missing, which stands for 422, means exactly that the name is taken; otherwise, if the call reaches the server, it adds a bucket with this retention and description; nothing else changes |
| `Servers.World.CreateOrganization` | controllers/organization_controller_impl.go:312-346 | missing, which stands for 422, means exactly that the name is taken; otherwise, if the call reaches the server, it adds the organization; nothing else changes |
| `Servers.ListingFindsFirst` | controllers/token_controller_impl.go:154-161 | a search loop over the listing of an organization stops at the first live row of the table with that parent and title, and nowhere exactly when there is none |
| `Servers.ListingIsComplete` | controllers/token_controller_impl.go:384-394 | a listing has exactly the live rows of the organization, each with its number |
| `Servers.BucketListingAnswer` | controllers/bucket_controller_impl.go:139-156 | searching the listed buckets picks the row that the step of the machine deletes |
| `Passes.PassIsRun` | controllers/token_controller.go:54-125 | an undisturbed pass is a run of the machine, as a change of the whole state: one up-to-date read, then calls that are all answered |
| `Passes.RunIsPass` | controllers/token_controller.go:54-125 | conversely, every run that consists of an up-to-date read and of answers until the pass is over leads to the state after the undisturbed pass |
| `Passes.ScheduleIsRun` | controllers/token_controller.go:54-125 | a schedule of undisturbed passes is a run of the machine |
| `Passes.PassTimesIsSchedule` | controllers/token_controller.go:54-125 | repeated undisturbed passes of one resource are a schedule that visits it alone |
| `Tables.Table.CountRemove` | controllers/token_controller_impl.go:154-168 | removing one row lowers the number of rows with its parent and title by exactly one |
| `Limiter.RateLimiter.RateLimit` | controllers/limiter.go:15-23 | a call is let through exactly when nothing was let through under its name before or long enough ago; the map stays the last recorded time of every name ever let through |
| `Limiter.EmissionsAreSpaced` | controllers/limiter.go:19-22 | two emissions under one name are at least the period of the later one apart |
| `Limiter.WindowBound` | controllers/limiter.go:15-23 | with one positive period E, any window of length T sees at most T/E + 1 emissions under a name, however many calls are made |
| `Limiter.NamesAreIndependent` | controllers/limiter.go:10-23 | what is let through under a name is what would be let through if no other name were ever used |
| `DeepCopy.DeepCopyList` | api/v1beta1/zz_generated.deepcopy.go:353-374 | the copy of a list of any length has the same value, nil staying nil; everything it reaches is new, and no two of its items share an array or a map |
| `DeepCopy.CopyItems` | api/v1beta1/zz_generated.deepcopy.go:357-363 | the same for the slice of items |
| `DeepCopy.CopyToken` | api/v1beta1/zz_generated.deepcopy.go:326-342 | the copy of a Token has the same value and reaches nothing that was there before |
| `DeepCopy.CopySpec` | api/v1beta1/zz_generated.deepcopy.go:385-392 | only the permission slice is replaced, by a new one with the same elements or nil |
| `DeepCopy.CopyStatus` | api/v1beta1/zz_generated.deepcopy.go:405-421 | only the condition slice and the data map are replaced, by new ones with the same contents or nil |
| `DeepCopy.CopyEntries` | api/v1beta1/zz_generated.deepcopy.go:414-420 | the entries are the same in whatever order they are visited |
| `DeepCopy.TouchCopy` | controllers/token_controller_impl.go:585-591 | refreshing a condition of a copy in place changes the copy as intended and leaves the value of the original alone |
| `DeepCopy.SeparateAppend` | api/v1beta1/zz_generated.deepcopy.go:359-362 | appending a token that reaches nothing taken keeps tokens separate |

## Left out

- Finalizers.NoLeak: from the creation of the incarnation to its end, its config must lead to one organization whenever it is there; that organization may yet have to be created, but otherwise config and organization may be missing only while the operator has nothing on the server for the incarnation; a config or organization that is missing or replaced later is the exception the source has, and `Leaks.LeaksExactlyWhen` says what it costs.
- Finalizers.WriteAheadFinalizer: requires the same, from the creation of the incarnation on, for the same reason.
- Publishing.UpdatesOverwriteNothingRight: requires that at the start every secret has a stamp that was given out, so that none is given out twice.
- Tokens.AtMostOneEver: what outsiders remove is counted, because the operator replaces it.
- Tokens.ReadyOnlyAfterTheFact: requires that nobody else writes the Token's secret between the pass's last call on it and its status write; the two servers offer no way to exclude that. A missing `token` entry reads as the empty string, so the statement says most for non-empty tokens.
- Deletion.DeletionTakesExactly: requires config, credential and organization; without them `Leaks.TeardownDropsExactlyWhen` applies.
- The 422 branch of authorization creation (`controllers/token_controller_impl.go:479-488`): it reads fields of a result that came with an error; the model's server never answers so.
- Tokens that share a secret name, or publish over the admin secret, are not excluded from runs; only `Tokens.ReadyOnlyAfterTheFact` and the chain need that they do not.
- Buckets of different namespaces with one organization and name: the operator treats them as one bucket, so ownership of buckets is by who created the row.
- Validity of Token permissions: only creation checks them, updates may break it.
- Defaults of the webhooks (names of configs and secrets): specs in the model are arbitrary, so a default is one of them.
- Whether a credential is any good, and the permissions it carries; the address in a config.
- A bucket listing that is nil without an error returns nil from FinalizeResources and would skip deletion (`controllers/bucket_controller_impl.go:140-142`); excluded by assumption.
- Paging of listings; the HTTP clients; owner references and garbage collection of secrets.
- Delivery of events and backoff: which pass comes when is part of the run or of the schedule.
- Log messages and the places where the rate limiter is called; the lock and the goroutine in the rate limiter (an emission is recorded when it is decided).
- Failing type assertions; status messages, condition types and condition statuses.
- Slices with spare capacity: a slice is modelled as an array of its length.
- Deep copies of Buckets, Organizations and Configs: they have the same loops over fewer fields.
