# Warmbly command-line tools and worker: verified model

Models of the self-contained logic in warmbly's `warmblyctl`, `warmbly` CLI and worker, with proofs of what they promise. `dafny verify dfyconfig.toml` checks everything.

## What is here

**Remote administrator sessions** (`remote_url`, `remote_store`, `remote_session`, `remote_client`, `remote_login`, `remote_system`, `refresh_ledger`, `remote_safety`, `remote_spending`, `remote_logins`, `remote_runs`, `remote_refinement`, `remote_outcomes`). Any number of `warmblyctl` processes share one locked credential file and talk to servers that rotate single-use refresh tokens.

- `RemoteSession` is one process as a state machine over clock readings, replies, save outcomes and requests: `do`, `refresh`, `forget`, login and logout.
- `RemoteClient` has the same code as methods that update the credential, the memory and the file in place. A ghost control point follows every effect, and `Do` is proved to be one run of the machine. `RemoteRefinement` shows such a run is a run of the shared system, whatever the other processes do in between. `RemoteLogin` does the same for the login command, with its two looks at the file and its approval loop.
- `RemoteOutcomes` says what one `do` sends, answers and leaves on disk, branch by branch.
- `RemoteSystem` interleaves any number of processes at every request, reply, save, lock and crash. Servers may answer anything; a save may succeed, fail, or replace the file and still report an error.
- `RefreshLedger` says where a refresh token can be (on disk, being spent, received but not stored) without processes; `RemoteSpending` shows every step is a ledger move. `RemoteRuns` holds the results over whole runs.

A refresh token is excused from the single-use result exactly when the save that should have replaced or removed it did not replace the file, its process crashed between the request and that save, or a server issued the token twice. Runs without such an event excuse nothing. For each of the three, `LostSaveReplays`, `CrashReplays` and `ReissueReplays` give, from every state with a live stored token, the run in which it makes the same token go out twice.

`RemoteUrl` is the normal form of a backend URL. Two accepted URLs have one origin exactly when scheme, host and port agree, unless a port is written with a leading zero: `https://h:0443` and `https://h` reach the same port under two origins. `CanonicalUnlessLeadingZero` proves that this is the only exception.

**Worker identities** (`identity_system`, `identity_window`, `identity_survival`, `identity_claim`, `identity_pool`). Replicas claim `*.id` files, interleaved at every system call. `IdentityPool` has `claimStateID` as a loop with claims that do not overlap: restarts keep their identity, and the pool is bounded. `IdentityClaim` shows that the system calls keep that loop's promise: a replica left alone claims the first free identity of its listing. The doc comment at `cmd/worker/identity.go:24` promises that a successor reclaims the identity. `IdentityWindow` gives a run in which it cannot: the minter fails after writing, closes the file, a sibling claims it, and the minter removes the path. `IdentitySurvival` proves when the promise holds: a claimed file stays in the directory with its UUID in every continuation if and only if no process has failed to write and is about to remove that path. Where every write and sync succeeded, no process has. Uniqueness of live identities holds regardless.

**JSON decoding and redaction** (`json_decode`, `json_redact`, `json_policy`). The decoder is proved to accept exactly the token streams of documents without repeated keys and within the depth limit. The redactor's output is the same for two documents if and only if they have the same view: the same allowed fields, the same safe strings, equally many dropped fields per object.

**Backup bundles** (`paths`, `bundle`, `keys_env`). Collecting, writing and restoring an unchanged tree puts every blob back; a restore writes nothing outside its destination; the key file reads back exactly when its names and values fit on their lines.

**Small algorithms** (`text`, `wrap_text`, `split_args`, `field_assign`, `field_object`, `endpoint_body`, `percent`, `fill_path`, `device_flow`). Optimal line wrapping, shell-like splitting, nested field assignment, path filling, polling bounds. `FieldObject` changes a tree of nested objects in place and is proved to set a value at a path of `FieldAssign`. A resource command lays the `-f` and `-F` fields over its flags by outermost name only: `FlagSurvives` shows that a flag such as `sender_scope[type]` is dropped exactly when some field begins with the same name, and `FlagIsDropped` gives the inputs.

## Model

| member | source | states |
|---|---|---|
| RemoteSession.DoSendsBounded | cmd/warmblyctl/remote_client.go:279-308 | For every list of clock readings, replies and save outcomes, one `do` sends at most one refresh, a non-GET target at most once, a GET target at most twice. |
| RemoteSession.ReadIsNotGivenUpEarly | cmd/warmblyctl/remote_client.go:292-307 | For every list of inputs, a read ends in a 401 only after exactly one refresh. |
| RemoteClient.Store.Save | cmd/warmblyctl/remote_store.go:200-237 | A save replaces the file by the memory or leaves it; an error does not tell which. |
| RemoteClient.Client.Forget | cmd/warmblyctl/remote_client.go:240-244 | Removes the credential from memory, blanks the token, saves; a failed save becomes the storage error, otherwise the file no longer holds the key. |
| RemoteClient.Client.KeepRotated | cmd/warmblyctl/remote_client.go:270-276 | The rotated credential is in the file before the call goes on; if it could not be saved the new session is revoked and the storage error returned. |
| RemoteClient.Client.Refreshed | cmd/warmblyctl/remote_client.go:256-276 | Lost, refused, undecodable or unusable replies drop the credential; other profiles are untouched. |
| RemoteClient.Client.Refresh | cmd/warmblyctl/remote_client.go:246-277 | Follows the machine step by step; every error other than the storage error leaves the key out of the file. |
| RemoteClient.Client.RenewIfDue | cmd/warmblyctl/remote_client.go:280-286 | Refreshes first exactly when the access token is missing or ends within thirty seconds of the clock reading; otherwise sends nothing. |
| RemoteClient.Client.Retry | cmd/warmblyctl/remote_client.go:298-307 | The second try of a read: one refresh, one request, and a second 401 forgets. |
| RemoteClient.Client.Attempt | cmd/warmblyctl/remote_client.go:279-308 | `do` statement by statement; the last reply of the target decides the outcome, a rejected read is asked again unless its refresh failed, a 401 is returned only with the credential already off the disk, and no other profile changes. |
| RemoteClient.Client.Do | cmd/warmblyctl/remote_client.go:279-308 | The call is one run of the machine: its requests, file and outcome are those of the inputs it met, within the bounds above, and the outcome is that of the last reply. |
| RemoteClient.Client.LogOut | cmd/warmblyctl/remote_auth.go:206-224 | A logout the server served ends logged out or in a storage error, any other as its reply says; after a successful one the file holds exactly the other credentials, less those of the same user on the same backend when all sessions were asked for. |
| RemoteClient.Client.LogOutLocally | cmd/warmblyctl/remote_auth.go:206-224 | A local-only logout sends nothing, and on success the file holds exactly the other credentials. |
| RemoteOutcomes.FirstReply | cmd/warmblyctl/remote_client.go:281-291 | With a good access token, one request, and its reply is the outcome unless it is a 401. |
| RemoteOutcomes.WriteRejected | cmd/warmblyctl/remote_client.go:292-297 | A rejected write is not repeated: one request, the credential off the file, and the 401. |
| RemoteOutcomes.ReadIsRetried | cmd/warmblyctl/remote_client.go:298-307 | A rejected read sends target, refresh and target with the new access token; the last reply is the outcome, and a second 401 removes the credential. |
| RemoteOutcomes.RejectedAndDead | cmd/warmblyctl/remote_client.go:246-268 | A rejected read whose refresh token has ended, or whose refresh is lost, refused or unusable, sends no third request and removes the credential. |
| RemoteOutcomes.DueAndRenewed | cmd/warmblyctl/remote_client.go:281-297 | With an access token about to end: refresh, then the target once; a 401 is final. |
| RemoteOutcomes.DueAndDead | cmd/warmblyctl/remote_client.go:246-286 | If that refresh brings nothing the target is not asked and the credential is removed. |
| RemoteOutcomes.RotationUnsaved | cmd/warmblyctl/remote_client.go:270-275 | A rotated token that could not be saved is revoked, and the call ends in the storage error. |
| RemoteOutcomes.ServedLogout | cmd/warmblyctl/remote_auth.go:216-224 | A served logout goes on to remove its credential, and with `--all` exactly the user's others on that backend. |
| RemoteOutcomes.SessionOpens | cmd/warmblyctl/remote_client.go:150-171 | A session opens exactly when a credential of the selected origin is stored under its key. |
| RemoteStore.RegisteredProfile | cmd/warmblyctl/remote_client.go:81-107 | A registered profile alone selects its own origin, and with another URL it is refused. |
| RemoteStore.ProfileNamesAreSpelled | cmd/warmblyctl/remote_client.go:89-91 | A profile name is refused exactly when it is too long, begins with a sign, or holds a foreign character. |
| RemoteLogin.Login.FirstLook | cmd/warmblyctl/remote_auth.go:52-66 | Goes on only when the profile resolves and has no credential; the lock is given back before anybody is asked. |
| RemoteLogin.Login.AwaitApproval | cmd/warmblyctl/remote_auth.go:82-121 | Waits at least the granted interval before each poll, so it makes at most lifetime over interval polls; ends with a usable approval or nothing. |
| RemoteLogin.Login.StoreSession | cmd/warmblyctl/remote_auth.go:122-145 | Stores exactly the new credential and its binding, only where the profile is still free; whatever is not stored is revoked. |
| RemoteLogin.Login.Run | cmd/warmblyctl/remote_auth.go:37-147 | One walk of the machine with at most sixty polls: nothing is written without an approval, an approved session is in the file on success and revoked last on failure, the lock is free at the end. |
| RemoteLogin.TimelyApprovalIsStored | cmd/warmblyctl/remote_auth.go:52-145 | A free profile, a proper grant, any number of polls too early and a usable approval: code and polls go out, and the session is stored under its own key with its binding. |
| RemoteLogin.OtherRepliesEndTheLogin | cmd/warmblyctl/remote_auth.go:29-35 | An improper grant, and any answer to a poll but pending, busy or a proper approval, end the login. |
| RemoteLogin.LoginMoveIsSystemStep | cmd/warmblyctl/remote_auth.go:52-145 | Every move of a login is the step of one process of the shared system, with the same requests and file, whatever the others did in between. |
| RemoteUrl.Normalize | cmd/warmblyctl/remote_client.go:40-69 | Accepts bare HTTPS origins, and HTTP on loopback, with a port from 1 to 65535; drops the default port and lowers the host. |
| RemoteUrl.NormalizingTwice | cmd/warmblyctl/remote_client.go:60-68 | An origin parses back to its host and port and normalises to itself. |
| RemoteUrl.AcceptedIsSecure | cmd/warmblyctl/remote_client.go:42-55 | What is accepted is HTTPS or on this host, bare, with a port from 1 to 65535. |
| RemoteUrl.CaseIsIgnored | cmd/warmblyctl/remote_client.go:45 | Hosts lower to the same one if and only if they differ in the case of letters only. |
| RemoteUrl.SameOrigin | cmd/warmblyctl/remote_client.go:57-68 | Two accepted URLs have one origin if and only if scheme, host in any case, and port as kept agree. |
| RemoteUrl.CanonicalUnlessLeadingZero | cmd/warmblyctl/remote_client.go:49-58 | The origin is the one spelling of the place reached if and only if the port has no leading zero. |
| RemoteUrl.OnePlaceTwoOrigins | cmd/warmblyctl/remote_client.go:49-58 | Two accepted URLs with the same scheme, host and port number, and different origins. |
| RemoteUrl.OriginIsPlace | cmd/warmblyctl/remote_client.go:40-69 | Without leading zeros, origins are equal if and only if scheme, host and port number are. |
| RemoteRefinement.ClientRunIsSystemRun | cmd/warmblyctl/remote_client.go:246-308 | The inputs one client recorded, taken as steps of one process of the shared system, are possible there and have the same requests, file and control point. |
| RemoteRefinement.InterleavedRunIsClientRun | cmd/warmblyctl/remote_store.go:61-127 | With any actions of other processes in between, a process that holds the lock goes where its own inputs lead and leaves the file they leave; the wire carries its requests and the others' and no more. |
| RemoteSafety.BaseKept | cmd/warmblyctl/remote_store.go:61-127 | Every step keeps: only the lock holder is inside a session, its memory is the file (or the file with its own pending change), every credential sits under its own origin. |
| RemoteSafety.IsolatedKept | cmd/warmblyctl/remote_client.go:150-171 | Every step keeps: what is stored, carried or sent was issued by the origin it is stored under or sent to. |
| RefreshLedger.Send | cmd/warmblyctl/remote_client.go:254-255 | Step of `SpendKept`: sending a stored token that is not being spent keeps the ledger balanced. |
| RefreshLedger.Receive | cmd/warmblyctl/remote_client.go:263-270 | Step of `SpendKept`: a token received for the first time, unused elsewhere, keeps the ledger balanced. |
| RefreshLedger.Remove | cmd/warmblyctl/remote_client.go:240-244 | Step of `SpendKept`: removing the credential whose token is being spent keeps the ledger balanced. |
| RefreshLedger.Store | cmd/warmblyctl/remote_client.go:270-272 | Step of `SpendKept`: putting a received token where the spent one was keeps the ledger balanced. |
| RemoteSpending.SpendKept | cmd/warmblyctl/remote_client.go:246-277 | Every step of every process keeps: a token not excused is sent at most once, and once sent is on disk only while the lock holder is spending it. |
| RemoteRuns.RefreshTokensSentOnce | cmd/warmblyctl/remote_client.go:246-277 | In every run of any number of processes against any servers, a refresh token not excused is sent to its server at most once. |
| RemoteRuns.LosslessRunsSendOnce | cmd/warmblyctl/remote_client.go:246-277 | In runs without a lost save, a crash before the save or a re-issued token, every refresh token is sent at most once. |
| RemoteRuns.SentTokensAreGone | cmd/warmblyctl/remote_client.go:256-262 | Whenever the lock is free, a token that has been sent is no longer stored, whatever the reply was. |
| RemoteRuns.StoredTokensAreSent | cmd/warmblyctl/remote_client.go:254-255 | Whatever unexpired token is stored, the next reader of that profile sends it. |
| RemoteRuns.LostSaveReplays | cmd/warmblyctl/remote_store.go:200-237 | If the save after a lost reply does not replace the file, a run exists in which the same refresh token is sent twice, and that token alone is excused. |
| RemoteRuns.CrashReplays | cmd/warmblyctl/remote_client.go:254-262 | The same for a process that crashes between the request and its save. |
| RemoteRuns.ReissueReplays | cmd/warmblyctl/remote_client.go:263-272 | The same for a server that answers with the refresh token it was sent. |
| RemoteRuns.TokensGoOnlyToTheirIssuer | cmd/warmblyctl/remote_client.go:173-186 | In every run every bearer and refresh token on the wire goes to the origin that issued it. |
| RemoteRuns.CredentialsStayHome | cmd/warmblyctl/remote_store.go:48-51 | In every run every stored credential carries the origin of its key, and a named profile is bound to that origin. |
| RemoteRuns.ProfilesAreNeverRebound | cmd/warmblyctl/remote_client.go:103-105 | Once a profile is bound to an origin, no later step of any process rebinds it. |
| RemoteLogins.StepWrites | cmd/warmblyctl/remote_auth.go:122-137 | A step removes keys, changes only the token of one key, or adds one key that was free; only a login adds, and never over an existing credential. |
| RemoteLogins.AccountsKept | cmd/warmblyctl/remote_auth.go:138-145 | Every step keeps each approved session stored or disowned by its own login, still carried by it, or lost in its crash. |
| RemoteLogins.CountsKept | cmd/warmblyctl/remote_auth.go:129-136 | Per key, logins stored less credentials removed is what the file holds. |
| RemoteRuns.OneLoginPerVacancy | cmd/warmblyctl/remote_auth.go:122-137 | Of any number of approved logins to one profile, at most one is stored until a credential is removed there. |
| RemoteRuns.ApprovedSessionsAreSettled | cmd/warmblyctl/remote_auth.go:118-145 | A login that ended without a crash itself stored its approved session or sent its revocation. |
| RemoteRuns.RejectedSessionsAreGone | cmd/warmblyctl/remote_client.go:292-306 | In every run a process returning 401, login required, an unusable refresh or a logout has its credential off the disk. |
| IdentitySystem.LocksKept | cmd/worker/identity.go:65-68 | Every system call keeps: a lock is held by exactly the process whose control point says so. |
| IdentitySystem.WrittenKept | cmd/worker/identity.go:69-81 | Contents change only under the writer's own lock, so a claimed file keeps its UUID. |
| IdentitySystem.TriedPathsKept | cmd/worker/identity.go:87-97 | Between open and read a path names the inode that was opened, or nothing. |
| IdentitySystem.ClaimsAreDistinct | cmd/worker/identity.go:32-109 | In every interleaving two live replicas that claimed an identity hold different UUIDs. |
| IdentitySystem.ClaimsAreBacked | cmd/worker/identity.go:44-82 | A claim is the lock of a file holding that UUID, listed unless its failed minter removed it (when that can happen: `ClaimedFileSurvives`; which file it is: `AloneClaimsTheFirst`). |
| IdentityWindow.ClaimedFileCanVanish | cmd/worker/identity.go:69-79 | A run in which a live claim's file is gone: it was claimed between the minter's close and remove. |
| IdentitySurvival.ClaimedFileSurvives | cmd/worker/identity.go:24-25 | In every reachable state, the path of a live claim keeps naming a file with that UUID in every continuation, past the holder's exit, if and only if no process is about to remove the path after a failed write or sync. |
| IdentitySurvival.SurvivesUnderItsHolder | cmd/worker/identity.go:69-79 | The same for continuations in which the holder does nothing. |
| IdentitySurvival.CleanClaimsSurvive | cmd/worker/identity.go:69-81 | If every write and sync so far succeeded, every claim has its file in the directory, and keeps it whatever fails from there on. |
| IdentitySurvival.SuccessorReclaims | cmd/worker/identity.go:87-109 | A replica that tries such a file while nobody holds it claims the same UUID. |
| IdentityClaim.AloneClaimsTheFirst | cmd/worker/identity.go:38-82 | From every reachable state, a replica about to list, left alone with calls that succeed, claims the first valid unlocked file of the sorted listing, or mints, writes and claims a new one if there is none. |
| IdentityClaim.FailedCandidateIsSkipped | cmd/worker/identity.go:87-109 | A candidate that cannot be opened, locked or read is passed over, its lock given back. |
| IdentityClaim.FailedMinterFallsBack | cmd/worker/identity.go:60-79 | A minter that cannot create or lock falls back; one that cannot write or sync closes, removes and falls back. |
| IdentityPool.StateDir.TryClaim | cmd/worker/identity.go:87-109 | Claims the file exactly when it is unlocked and holds a UUID, and otherwise gives the lock back. |
| IdentityPool.StateDir.Claim | cmd/worker/identity.go:32-82 | Returns the lexicographically first valid unlocked file, or mints a new one when there is none. |
| IdentityPool.RestartKeepsIdentity | cmd/worker/identity.go:24-25 | A replica restarting alone reclaims the identity it had. |
| IdentityPool.IdentityIsStable | cmd/worker/identity.go:24-25 | However many times it restarts alone, every boot has the identity of the first. |
| IdentityPool.PoolIsBounded | cmd/worker/identity.go:30-31 | The number of valid files never exceeds the larger of the initial number and the most replicas ever live at once. |
| JsonDecode.Tokens.Read | cmd/warmblyctl/remote_output.go:170-221 | The recursive reader agrees with the grammar function on value, remaining tokens and failure, and leaves the bracket stack as it found it. |
| JsonDecode.DecodeTokens | cmd/warmblyctl/remote_output.go:166-230 | One value and then the end of input, or an error. |
| JsonDecode.ReadsPrinted | cmd/warmblyctl/remote_output.go:170-221 | Reading the tokens of an acceptable document yields its meaning and leaves the rest, at any depth. |
| JsonDecode.ReadIsPrinted | cmd/warmblyctl/remote_output.go:170-221 | Whatever is read was the tokens of an acceptable document. |
| JsonDecode.DecodeIsExact | cmd/warmblyctl/remote_output.go:166-230 | Decoding yields a value exactly when the tokens are those of one document with unique keys per object and no node below depth 64, with that meaning. |
| JsonDecode.DecodableValues | cmd/warmblyctl/remote_output.go:171-173 | The values that can come out are exactly those without a node deeper than 64. |
| JsonDecode.SixtyFiveLevels | cmd/warmblyctl/remote_output.go:171-173 | n nested arrays decode if and only if n is at most 65. |
| JsonDecode.RepeatedKey | cmd/warmblyctl/remote_output.go:184-196 | An object of two members decodes if and only if their names differ. |
| JsonRedact.RedactValue | cmd/warmblyctl/remote_output.go:275-311 | The recursive redactor computes the specified output. |
| JsonRedact.RedactObject | cmd/warmblyctl/remote_output.go:277-299 | The loop gives the same output in whatever order the map yields its fields. |
| JsonRedact.OutputIsDisplayable | cmd/warmblyctl/remote_output.go:232-311 | At every depth an output string is empty, the placeholder, or accepted for its own key; fields are allowed ones or the counter. |
| JsonPolicy.OrdinaryKey | cmd/warmblyctl/remote_output.go:232-271 | Under a key with no rule of its own a string is shown if and only if it is a timestamp, a UUID or a listed word; otherwise the output is the placeholder. |
| JsonPolicy.CursorKey | cmd/warmblyctl/remote_output.go:237-247 | Under the cursor keys, cursors of at most 512 bytes are shown besides. |
| JsonPolicy.VersionKey | cmd/warmblyctl/remote_output.go:257-259 | Under `version`, semantic versions are shown besides. |
| JsonPolicy.TopicKey | cmd/warmblyctl/remote_output.go:260-271 | Under the topic keys, the two fixed topics and those ending in a canonical UUID are shown besides. |
| JsonPolicy.MonitoringSample | cmd/warmblyctl/remote_output.go:283-291 | In `sources` and `metrics`, four fields show only the words of their own vocabulary. |
| JsonPolicy.MonitoringVersion | cmd/warmblyctl/remote_output.go:284-291 | The version of a document with sources shows only `1`. |
| JsonPolicy.OtherFields | cmd/warmblyctl/remote_output.go:294 | Every other listed field is redacted under its own name. |
| JsonRedact.OutputRevealsTheView | cmd/warmblyctl/remote_output.go:275-311 | Two documents have the same output if and only if they agree on allowed fields, safe strings, other leaves and the number of dropped fields per object; values in monitoring slots that are not accepted need not agree. |
| JsonRedact.FieldsAreConserved | cmd/warmblyctl/remote_output.go:279-298 | Fields shown plus the counter equal the fields there were, and there is a counter only if fields were dropped. |
| JsonRedact.ArraysKeepTheirLength | cmd/warmblyctl/remote_output.go:300-305 | Step: a redacted array has the length of the original. |
| JsonRedact.ThriceIsTwice | cmd/warmblyctl/remote_output.go:275-311 | Redacting a third time changes nothing. |
| JsonRedact.TwiceIsOnce | cmd/warmblyctl/remote_output.go:296-298 | Redacting a second time changes nothing if and only if no object shown drops two fields. |
| WrapText.WrapText | cmd/warmblyctl/checks.go:187-204 | The loop produces the greedy layout of the words, measured in bytes of UTF-8. |
| WrapText.GreedyIsLayout | cmd/warmblyctl/checks.go:193-203 | The lines hold the words in order, and a line of two or more words fits the width. |
| WrapText.GreedyIsOptimal | cmd/warmblyctl/checks.go:193-203 | No split of the words by the same rule uses fewer lines. |
| Percent.SizeIsEncodedLength | cmd/warmblyctl/checks.go:196 | The size by which lines are measured is the length in UTF-8. |
| WrapText.WrappingKeepsTheWords | cmd/warmblyctl/checks.go:187-204 | Splitting the printed lines into words gives the words of the text. |
| SplitArgs.SplitLine | cmd/cli/root.go:114-147 | The loop computes the specified split. |
| SplitArgs.SplitIsExact | cmd/cli/root.go:112-147 | Accepted with these words exactly when the line is made of quoted pieces, bare characters and blanks forming these words. |
| SplitArgs.SplitFailsOnOpenQuote | cmd/cli/root.go:140-142 | Fails exactly when a quote is left open. |
| SplitArgs.AliasRunsItsWords | cmd/cli/root.go:90-110 | An alias is replaced by the words of its line; a blank line or an open quote leaves the arguments alone. |
| SplitArgs.BareWordsAreSplit | cmd/cli/root.go:130-136 | Words without blanks and quotes, joined by spaces or by tabs, split into themselves. |
| SplitArgs.OtherArgumentsStay | cmd/cli/root.go:93-104 | Arguments that begin with a flag or name no alias are left alone. |
| SplitArgs.SplitUndoesQuoting | cmd/cli/root.go:112-147 | Any list of words, empty and quote-bearing ones included, survives quoting, joining and splitting. |
| FieldObject.Obj.Assign | cmd/cli/api.go:226-251 | In-place assignment through nested objects parses its key to a path and sets there, and nowhere else; it fails exactly when parsing does, leaving only the objects it opened on the way. |
| FieldAssign.ParseShown | cmd/cli/api.go:227-239 | Every path of writable names, written with nested brackets, is parsed back. |
| FieldAssign.RefusedKeys | cmd/cli/api.go:232-239 | A key with an unclosed bracket, or a bracket without a name, is refused, each with its own error. |
| FieldAssign.IndependentSetsCommute | cmd/cli/api.go:226-251 | Writes and appends at paths neither of which is a prefix of the other commute. |
| FieldAssign.LastSetWins | cmd/cli/api.go:162-163 | Of two writes at the same path only the last is seen. |
| FieldAssign.SetIsFound | cmd/cli/api.go:226-251 | A written value is found at its path. |
| FieldAssign.SetLeavesOthers | cmd/cli/api.go:226-251 | A write leaves every independent path as it was. |
| FieldAssign.AppendsBuildInOrder | cmd/cli/api.go:240-244 | Appends at one path add exactly their values in order to the array that was there. |
| FieldAssign.AppendsIgnoreIndependentWrites | cmd/cli/api.go:240-244 | Independent writes between appends change nothing about them. |
| FieldObject.AddField | cmd/cli/api.go:167-173 | One field is cut at its first `=`, converted and assigned, or refused. |
| FieldAssign.FieldValues | cmd/cli/api.go:167-195 | `-f` keeps its text; `-F` reads what follows an `@`, and otherwise guesses. |
| FieldObject.BuildFields | cmd/cli/api.go:164-202 | The object is the fold of all raw fields and then all typed ones, or the first error; an empty object is no body. |
| EndpointBody.ReadFlags | cmd/cli/resources.go:201-228 | Flags go to the query, the last of a key winning, or are assigned to the body in order. |
| EndpointBody.LastFlagWins | cmd/cli/resources.go:220-223 | In the query, the last flag of a key counts. |
| EndpointBody.Overlay | cmd/cli/resources.go:237-239 | The fields' outermost names replace those of the body; the nested objects move over whole. |
| EndpointBody.BuildBody | cmd/cli/resources.go:201-263 | The payload is the literal input alone, the merged object, an empty object, nothing, or the first error; in the merged object the fields win, and a flag is there exactly as `FlagSurvives` says. |
| EndpointBody.FlagSurvives | cmd/cli/resources.go:237-239 | A flag's value at a path no field writes is sent if and only if no field begins with the same name. |
| EndpointBody.FlagIsDropped | cmd/cli/resources.go:237-239 | A flag that writes `s[t]`, given with a field `s[u]=text`: both are accepted, and the flag's value is not sent. |
| EndpointBody.FieldsWin | cmd/cli/resources.go:237-239 | Step: what the fields set is sent as they set it. |
| FieldAssign.IndependentFieldsCommute | cmd/cli/api.go:162-202 | Two fields with independent keys may be given in either order. |
| Paths.SafeJoinIsExact | cmd/warmblyctl/backup.go:712-719 | Accepts an entry exactly when its cleaned form is not the root and the root does not clean to `/` or `.`; the result is strictly below the root. |
| Paths.SafeJoinOfNames | cmd/warmblyctl/backup.go:712-719 | A path of plain names lands at itself below the root. |
| Paths.DotDotUndoesAName | cmd/warmblyctl/backup.go:713-714 | A name followed by `..` is as if neither were there. |
| Paths.LeadingDotDot | cmd/warmblyctl/backup.go:713-714 | A leading `..` is lost at the root and stays in a relative path. |
| Bundle.CollectBlobs | cmd/warmblyctl/backup.go:617-656 | In order of their names, exactly the walked files that did not vanish before they were examined, are not the bundle being written, and are not called `warmbly-*.tar.gz` at the top of the root. |
| Bundle.TarFile | cmd/warmblyctl/backup.go:777-812 | A file that vanished is skipped; otherwise one entry under `blobs/` of exactly the size examined, with the bytes read, cut or padded with zeros. |
| Bundle.WriteBundle | cmd/warmblyctl/backup.go:723-758 | Manifest, keys if any, dump and blobs, in that order. |
| Bundle.FixedEntriesAreFound | cmd/warmblyctl/backup.go:838-861 | Manifest, keys and dump are found again whatever the blobs are called. |
| Bundle.Disk.RestoreBlobs | cmd/warmblyctl/backup.go:665-707 | Writes the restorable entries in order until one is refused, and counts the files and bytes written, refused or not. |
| Bundle.RestoreStaysBelow | cmd/warmblyctl/backup.go:709-711 | For any archive, files not below the destination stay as they were. |
| Bundle.RestoreDeletesNothing | cmd/warmblyctl/backup.go:661-664 | Step: a restore is additive, no file disappears. |
| Bundle.RestoreUndoesBackup | cmd/warmblyctl/backup.go:661-707 | Archiving any blobs of an unchanged tree and restoring puts each at its own path with its own bytes and leaves other files alone. |
| Bundle.BackupThenRestore | cmd/warmblyctl/backup.go:601-707 | Walk, collect, write, restore: every walked file comes back except the bundle being written and `warmbly-*.tar.gz` at the top; their places, and every other file at the destination, stay as they were. |
| KeysEnv.RenderKeys | cmd/warmblyctl/backup.go:904-917 | The text is the comment header and one line for each key, in order of the names; the order in which the map yields them makes no difference. |
| KeysEnv.ReadKeys | cmd/warmblyctl/backup.go:884-902 | The loop over lines computes the specified map. |
| KeysEnv.RoundTripIsExact | cmd/warmblyctl/backup.go:884-917 | Reading back gives the same keys if and only if names and values are trimmed and newline-free and no name holds `=` or starts with `#`. |
| Percent.PathEscapeIsUndone | cmd/cli/resources.go:320 | Decoding an escaped value gives its characters back. |
| Percent.PathEscapeInjective | cmd/cli/resources.go:320 | Different values have different escaped forms. |
| FillPath.Fill | cmd/cli/resources.go:310-326 | The loop computes the specified sequence of replacements, or its first error. |
| FillPath.ReplaceOnTemplate | cmd/cli/resources.go:312-320 | Replacing a marker's text in a template replaces exactly that marker, wherever it stands. |
| FillPath.FillIsSubstitution | cmd/cli/resources.go:309-326 | Succeeds exactly when names are distinct, present, complete and arguments non-empty, and then equals the simultaneous substitution. |
| FillPath.FilledSegmentsDecode | cmd/cli/resources.go:309-326 | With markers that are whole segments, the path has the template's segments and each marker's segment decodes to its trimmed argument. |
| FillPath.FillIsInjective | cmd/cli/resources.go:309-326 | Equal filled paths come from equal trimmed arguments. |
| DeviceFlow.PollDeviceFlow | cmd/cli/device.go:82-131 | Terminates; every poll comes at least its wait after the one before and not after the deadline; only the last reply ends the wait, and decides the outcome. |
| DeviceFlow.RepliesConclude | cmd/cli/device.go:101-130 | Which outcome each final reply gives, and which replies are waited through. |
| DeviceFlow.WaitsNeverShrink | cmd/cli/device.go:79-81 | No wait is below the interval or below an earlier wait. |
| DeviceFlow.PollsComeLate | cmd/cli/device.go:87-98 | The k-th poll is made no sooner than the first k waits together and within the lifetime. |
| DeviceFlow.WaitedThroughOutage | cmd/cli/device.go:106-111 | After k polls that all failed transiently the waits add up to k intervals and k(k-1)/2 seconds. |
| DeviceFlow.PollsAreBounded | cmd/cli/device.go:87-98 | The number of polls times the interval is within the lifetime, and tighter through an outage. |
| DeviceFlow.SignIn | cmd/cli/device.go:70-75 | With the defaults for missing numbers the bound holds whatever the server sent. |
| DeviceFlow.NumbersAreDefaulted | cmd/cli/device.go:70-75 | The server's positive numbers stay; missing ones are three and six hundred seconds. |

## Left out

- RemoteSession: HTTP transport, response decoding, request-path checks, file permissions, symlinks and fsync appear only as outcomes: lost, refused, decoded, lock held or not, file replaced or not.
- RemoteStore: origins are values in normal form, as `RemoteUrl` makes them. The SHA-256 key is taken to be injective.
- RemoteUrl: Go's URL parser is not modelled beyond the split of host and port; hosts it would print escaped (zones, non-ASCII letters) are not covered, and the loopback test is a parameter.
- RemoteSystem: a login may poll at any time and give up at any time; the waits are in `RemoteLogin`. Waiting for the lock is a step that may fail.
- RemoteLogin: flag parsing, the client name and what is printed are not modelled.
- RemoteSystem: the credential file is read and decoded successfully whenever the lock is taken, or the opening fails as a whole.
- IdentitySystem: an inode is never reused while the model runs; directory creation failures only make a replica fall back before it starts.
- IdentityPool: the sorted listing is an argument, with the requirement that it is the sorted list of the directory's `*.id` names.
- JsonDecode: lexing is not modelled; input is tokens, including one for malformed text, and the standard decoder's check that brackets match and keys are strings is part of the token reader.
- JsonRedact: the word lists and the timestamp, UUID, cursor and version tests are parameters. What the proofs use of them is stated as `Sound`: the counter field is not allowed, `sources` is, and the placeholder passes no test.
- FieldAssign: reading standard input twice and number formats are not modelled.
- EndpointBody: confirmation, pagination and the request itself are not modelled; values are encoded as they are.
- Bundle: compression, the tar byte format, file modes, symlinks, directory creation and I/O errors are not modelled; the walk of the blob root is an argument, and so is which files vanish during it.
- KeysEnv: the wording of the comment header is a parameter; the one-mebibyte limit on reading an entry is not modelled.
- DeviceFlow: the sign-in request itself and what is done with the token are not modelled; times are whole seconds.
- The scheduler, rollout, warmup and campaign logic sit behind packages outside these files and are not part of this model.
