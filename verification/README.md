# pg-tunnel, modelled and proved

pg-tunnel opens an SSM tunnel to a PostgreSQL server and runs a client with short-lived
credentials. Between AWS and libpq it keeps files, processes, streams and clocks in order; this
project models that part in Dafny 4.11 and proves what it promises. `dafny verify dfyconfig.toml`
checks everything.

**Session storage and the shared password file** (`Text`, `Passfile`, `Blocks`, `AtomicFile`,
`SharedFile`, `ClientFiles`, `Sessions`, `SessionInvariant`, `SessionSteps`, `SessionTheorems`,
`SessionRuns`, `SessionSharing`, `SessionUser`, `SessionProgress`, `SessionEnds`).
Any number of sessions and cleanups run at once. Each owns a private `session-*` directory under an
advisory lock and a marked block in the user's `.pgpass`. `Sessions` is the protocol of
`internal/libpq/files.go` and `internal/libpq/pgpass.go` as a state machine: Prepare, Update, Close
and Recover go on one file operation at a time (creating, filling, renaming and removing a file or
a directory, taking a lock, reading, listing), every operation may fail, with what it leaves
behind, every process may be killed between two steps, and steps of all processes interleave
freely. The bytes of the shared file are real text; the block editor, the line printer and libpq's
documented readers work on that text. The theorems hold in every state of every run; where a
property can fail, `SessionRuns` builds a run from the start in which it does.

**Lifecycle** (`Lifecycle`). The main goroutine, the command, the refresh loop, the tunnel and the
cancellation of `internal/session/session.go` as interleaving steps with a trace of begun and
returned calls.

**Renewal** (`Refreshing`). The refresh loop with its backoff and schedule as loops over what the
outside does, in nanoseconds, together with the expiry of IAM credentials.

**Log filter** (`Redaction`, `LogTails`). Incremental redaction and line splitting of the tunnel
child's output against specifications on the whole stream.

**Reconnection** (`Recovery`). The bounded retry loop and the texts that it can end with.

**Quoting** (`ShellQuoting`). The printed commands against the POSIX token recognition.

Assumptions: rename is atomic, a lock has one holder and is released when its process ends (the
meaning given to flock, not a result), nothing but the modelled
processes changes the session storage or the shared file, timers fire on time where a statement
does not name their lateness, and sessions that run at the same time listen on different ports. The
user's own bytes in the shared file hold no begin line of a session name in use.

Results that differ from what one might expect of the code:

- Removals of *overlapping* blocks do not commute (`Blocks.OverlappingRemovalsDiffer`), and one
  matching block without an end keeps all the others in the file (`Blocks.UnendedBlockIsLeftAlone`).
- A recovery also removes complete stale blocks that the user's own bytes held from the start. The
  user's bytes survive every run if and only if they hold none (`SessionUser.UserBytesKeptIff`).
- An Update can return an error although its new secret is in place, when removing the temporary
  name fails after the rename; lookups then find the newer secret and not the acknowledged one
  (`SessionRuns.LateUpdateHides`, `SessionTheorems.LookupFindsAckedIff`).
- A session that shares no file keeps a block that its name had when its directory was made: it can
  take over the name of a dead session of a configuration that did share
  (`SessionSharing.PublishedIff`, `SessionRuns.NameIsReused`).
- A host name that starts with `#` makes its line of the private password file a comment
  (`ClientFiles.PrivateFileAnswers`).
- The cleanup of temporary files takes every file that begins like one, also those that no write
  made, such as `.pgpass.tmp-backup` (`SessionRuns.FileKeptIff`), and temporary files of another
  target exactly when its prefix begins with this target's, as for `x` and `x.tmp-y`
  (`AtomicFile.TakesOthersTempsIff`). Classes and escapes aside, it takes still others if and only if
  the target's name has a star or a question mark (`AtomicFile.GlobTakesIff`).
- A token can come back in a mark if and only if, laid over the mark at some place, it agrees with it
  and what it has before the mark makes no earlier occurrence (`Redaction.RedactedIsFreeIff`); without
  brackets this means to occur in the word `redacted` (`Redaction.CleanIff`). Redaction across chunks
  is exact for the other tokens up to 8193 characters, and for the mark itself
  (`LogTails.TextIsSuffixIff`). A line over 8192 characters can be torn so that its end passes for a
  progress message (`LogTails.TornLineIsForwarded`).
- A renewal is sure to be scheduled by the expiry exactly when the schedule is made within 30 seconds
  of the one-minute guard (`Refreshing.ScheduledInTimeIff`). Startup can take longer
  (`Refreshing.FirstRenewalInTimeIff`), and so can publishing, which no timeout bounds.
- With calls that return at once an outage is survived up to 57 seconds, not 60
  (`Recovery.OutageSurvivedIff`).

## Model

| member | source | states |
|---|---|---|
| Passfile.FormatLine | internal/libpq/pgpass.go:23-29 | escaping every field in place and joining them gives the password line, and changes the caller's fields to their escaped forms |
| Passfile.LineRoundTrip | internal/libpq/pgpass.go:23-29 | splitting a printed line at its unescaped colons and unescaping gives back exactly its fields, for all fields including runs of backslashes and colons |
| Passfile.LineIsInjective | internal/libpq/pgpass.go:23-29 | different field lists are printed as different lines |
| Passfile.AfterOwnField | internal/libpq/pgpass.go:23-29 | a printed field matches its own value under libpq's rules, whatever it contains |
| Passfile.FieldIff | internal/libpq/pgpass.go:23-29 | a printed field matches a value without colons exactly when it is that value, or is a star |
| Passfile.OwnFields | internal/libpq/pgpass.go:19-29 | a printed line matches the connection that it was printed for, and what is left is its password field |
| Passfile.PasswordField | internal/libpq/pgpass.go:23-29 | unescaping the printed password field gives the secret |
| Passfile.OtherSecondField | internal/libpq/pgpass.go:19-29 | a line printed for one port does not match another port |
| Passfile.CommentLine | internal/libpq/pgpass.go:47-51 | lines that start with the comment sign answer no lookup |
| Blocks.RemoveBlocks | internal/libpq/pgpass.go:101-122 | the line loop computes the content without the matching blocks, or returns the content when a matching block never ends |
| Blocks.WithoutBlocksIdempotent | internal/libpq/pgpass.go:101-122 | removing the same blocks twice changes nothing more, on arbitrary content |
| Blocks.UnendedBlockIsLeftAlone | internal/libpq/pgpass.go:118-120 | content with a matching block that never ends is returned unchanged |
| Blocks.BeginLineStarts | internal/libpq/pgpass.go:124-131 | a begin line of any wording is recognised as its session's |
| Blocks.BlockSessionIff | internal/libpq/pgpass.go:124-131 | a line begins a block exactly when it starts with the mark, a name without blanks and the word begin, each followed by a blank |
| Blocks.PassItems | internal/libpq/pgpass.go:101-131 | one pass over complete, separate blocks and text lines drops the matching blocks and ends outside any block |
| Blocks.WithoutBlocksFilters | internal/libpq/pgpass.go:101-131 | on text lines and complete separate blocks the editor is exactly the filter that drops the matching blocks, and keeps a missing final newline |
| Blocks.RemovalsCommute | internal/libpq/pgpass.go:101-131 | blocks of different sessions can be removed in either order |
| Blocks.OverlappingRemovalsDiffer | internal/libpq/pgpass.go:105-117 | with overlapping blocks the order of two removals matters |
| Blocks.RewrittenBlock | internal/libpq/pgpass.go:91-95 | an edit with lines puts one complete block in front of the content without that session's blocks |
| Blocks.NoBlockKept | internal/libpq/pgpass.go:82-90 | content without begin lines of a session is unchanged by the removal of its blocks |
| Blocks.WithoutBlocksHasNoBlock | internal/libpq/pgpass.go:101-122 | a removal creates no begin line that the content did not have |
| AtomicFile.SharedTempNames | internal/atomicfile/atomicfile.go:48-50 | two targets in one directory can get the same temporary name exactly when their names are equal up to a leading dot |
| AtomicFile.LeftoversNeedNotBeTemps | internal/atomicfile/atomicfile.go:33-46 | a name can begin like a temporary one although CreateTemp, which appends digits, never makes it |
| AtomicFile.MatchStays | internal/atomicfile/atomicfile.go:35-46 | a glob pattern without a slash takes no name with one |
| AtomicFile.GlobFindsTemps | internal/atomicfile/atomicfile.go:35-50 | for target names without classes and escapes the glob finds every name that CreateTemp can choose and never the target, also when the target's name has stars and question marks |
| AtomicFile.GlobTakes | internal/atomicfile/atomicfile.go:35-50 | for a name without metacharacters it takes exactly the names that begin like a temporary one |
| AtomicFile.GlobTakesIff | internal/atomicfile/atomicfile.go:35-50 | among names without classes and escapes, that is all it takes if and only if the name has no star and no question mark |
| AtomicFile.TakesOthersTempsIff | internal/atomicfile/atomicfile.go:33-50 | the cleanup for one target takes a temporary file of another exactly when the one's prefix begins the other's |
| AtomicFile.WriteKeeps | internal/atomicfile/atomicfile.go:12-31 | after every single operation of a write the target holds its old content or all of the new one, and at most one temporary file has appeared |
| AtomicFile.Folder.Write | internal/atomicfile/atomicfile.go:12-31 | success publishes the new content; an error leaves the old content, except that of the deferred removal, which comes after the new content is in place; a kill leaves one or the other and at most the temporary file |
| AtomicFile.Folder.RemoveLeftovers | internal/atomicfile/atomicfile.go:33-46 | a nil return means that exactly what the glob matches is gone, every temporary file of the target included; other files, the target among them, are never touched |
| AtomicFile.WritesKeepOthers | internal/atomicfile/atomicfile.go:12-31 | any sequence of completed, failed and killed writes leaves every file alone but the target and its temporary names |
| AtomicFile.WritesThenCleanup | internal/atomicfile/atomicfile.go:12-46 | for target names without classes and escapes, one cleanup after such a sequence leaves the target with one write's complete data, not older than the last completed write, and the original files that the cleanup's pattern does not match |
| SharedFile.EditCommits | internal/libpq/pgpass.go:82-99 | one edit turns the text that a history of edits stands for into the text that the longer history stands for |
| SharedFile.EntriesAreLastPublished | internal/libpq/pgpass.go:53-62 | a block is in the file exactly when the last edit of its session published it |
| SharedFile.EntriesNewestFirst | internal/libpq/pgpass.go:91-95 | the blocks are ordered by their last edit, most recent first, so no session has two |
| SharedFile.UserPartKeptIff | internal/libpq/pgpass.go:82-99 | the user's bytes are unchanged after any history of edits if and only if none of its removals of stale blocks changes them on its own |
| SharedFile.StaleBlockIsHarmed | internal/libpq/pgpass.go:152-161 | a complete block of an unused name in the user's bytes is removed |
| SharedFile.LeadsAfter | internal/libpq/pgpass.go:82-99 | edits of sessions on other ports do not displace a session's block from being the first of its port |
| SharedFile.LookupFindsLeader | internal/libpq/pgpass.go:17-29 | a lookup of a session's port, database and user finds its secret, whatever other blocks and the user's lines say |
| ClientFiles.AcceptsIff | internal/libpq/files.go:78-83 | exactly those targets are accepted whose values hold no line break and no NUL and have white space at neither end |
| ClientFiles.AcceptsSecretIff | internal/libpq/files.go:92-95 | exactly those secrets are accepted that are not empty and hold no line break and no NUL |
| ClientFiles.ServiceRoundTrip | internal/libpq/files.go:78-89 | for every accepted target libpq reads exactly eight settings from the printed service file, those of the target and the fixed ones, in order |
| ClientFiles.PrivateFileAnswers | internal/libpq/files.go:92-103 | the private password file answers with the secret under 127.0.0.1, and under the host name if and only if that does not start with the comment sign |
| SessionInvariant.SeatKept | internal/libpq/files.go:43-66 | no step of another process takes away a live session's directory, from its creation before its lock to its own removal |
| SessionInvariant.PublishedKept | internal/libpq/pgpass.go:53-62 | no step of another process takes away or changes the block that a live session is bound to have |
| SessionInvariant.DoomKept | internal/libpq/files.go:145-151 | what a recovery has swept stays swept, and what it still has to sweep stays without an owner, while other processes go on |
| SessionSteps.AnyStep | internal/libpq/files.go:43-208 | every step of Prepare, Update, Close and Recover, failing and killed ones included, keeps its own process's invariant and stays within its footprint |
| Sessions.SharedGlob | internal/libpq/pgpass.go:142-144 | for the shared file's name the cleanup's pattern matches exactly the names that begin like a temporary one |
| SessionTheorems.InvNext | internal/libpq/files.go:43-208 | every step of every process keeps the invariant of all processes |
| SessionTheorems.RunInv | internal/libpq/files.go:43-208 | the invariant holds in every state of every run |
| SessionTheorems.SharedFileShape | internal/libpq/pgpass.go:53-164 | in every reachable state the shared file is the complete blocks, at most one per session and most recently updated first, followed by the user's part |
| SessionUser.UserBytesKeptIff | internal/libpq/pgpass.go:53-164 | in every state of every run the file is its blocks followed by all of the user's bytes, missing final newline included, if and only if those hold no stale block that a recovery can remove |
| SessionUser.StaleIsRemoved | internal/libpq/pgpass.go:133-164 | if they do, a single cleanup on an otherwise unused machine removes it |
| SessionUser.StaleBlockIsRemoved | internal/libpq/pgpass.go:133-164 | for example one complete block of an unused name in front of other text |
| SessionUser.OtherNamesKept | internal/libpq/pgpass.go:152-157 | in no run is a block removed whose name is a path, too long for a file name, or that of something that the session storage holds |
| SessionTheorems.BystandersKept | internal/libpq/pgpass.go:133-144 | no file is made or changed but the shared one and its temporary copies, and none disappears that does not begin like such a copy |
| SessionTheorems.LocksExclude | internal/libpq/files.go:153-183 | the one-holder meaning of flock, which the guards of the locking steps express, holds in every reachable state |
| SessionTheorems.PartsExclude | internal/libpq/files.go:153-208 | no two processes recover or prepare at the same time, no two rewrite the shared file at the same time, and no sweep has a directory that a session owns |
| SessionTheorems.LiveSessionKept | internal/libpq/files.go:134-151 | no Recover and no other session ever removes the directory or the block of a live session, not before it is locked and not in the middle of its Close |
| SessionTheorems.LookupFindsSession | internal/libpq/files.go:91-105 | in every reachable state whoever looks up a live sharing session in the shared file finds the secret of its last Update that returned nil, unless a later Update has committed its own and not returned yet, or failed only after its rename |
| SessionTheorems.LookupFindsAckedIff | internal/libpq/files.go:91-105 | between its calls a session is found with its last acknowledged secret exactly when no later Update failed only after its rename, or did so with the same secret |
| SessionRuns.LateUpdateHides | internal/libpq/files.go:91-105 | for every session name, accepted target and pair of accepted secrets there is a run in which Prepare acknowledged the first, a later Update returned an error after its rename, and the lookup of the idle session finds the second |
| SessionRuns.EarlyFailureKeeps | internal/libpq/files.go:92-105 | and one in which a later Update failed before its rename, and the lookup of the idle session finds the first secret |
| SessionSharing.PublishedIff | internal/libpq/files.go:63-76 | in every run, after an Update that returned nil a session has a block in the shared file exactly when one is configured and any port is allowed or the nonzero fixed port is its own, or its name had a block already when its directory was made |
| SessionRuns.NameIsReused | internal/libpq/files.go:145-151 | the latter happens: a run in which a session without a shared file has the block of a dead one |
| SessionRuns.SharedIsFound | internal/libpq/files.go:63-76 | for every configuration of a shared file for any port or for this one there is a run in which the prepared session is found with its secret |
| SessionRuns.FixedPortIsFound | internal/libpq/files.go:74-76 | in particular for a session on its fixed port |
| SessionSharing.AcknowledgedSince | internal/libpq/files.go:43-72 | in every run a session whose Prepare has returned has acknowledged a secret |
| SessionSharing.ServesOn | internal/libpq/files.go:91-132 | whatever fails, such a session serves its client until Close or a kill; an Update acknowledges its secret or changes nothing that was acknowledged |
| SessionSharing.FailedUpdateKeeps | internal/libpq/files.go:92-105 | in every run an Update that returns an error before its rename leaves the session its directory, and in the shared file the secret that it had |
| SessionTheorems.CloseRemoves | internal/libpq/files.go:120-132 | when a Close has removed its directory and nothing failed, the directory is gone and, for a sharing session, so is its block |
| SessionTheorems.PrivateFilesAgree | internal/libpq/files.go:78-105 | after an Update that returned nil both private files are complete, answer with that secret and agree with the shared file |
| SessionTheorems.RecoveryIsComplete | internal/libpq/files.go:134-151 | a successful recovery has removed the directory and the shared block of every session that was over when it took the root lock |
| SessionTheorems.RecoveryRemovesCopies | internal/libpq/pgpass.go:133-144 | and everything that begins like a copy of the password file that a killed write had left |
| SessionTheorems.RecoveryTakesLookalikes | internal/libpq/pgpass.go:142-144 | also a file that no write has made |
| SessionRuns.FileKeptIff | internal/libpq/pgpass.go:133-144 | a file of the home directory other than the shared one keeps its content in all runs if and only if its name does not begin like a copy of the password file |
| SessionRuns.RecoveryRun | internal/libpq/pgpass.go:133-164 | from every home directory with the user's bytes a recovery of an unused machine comes to the end of its pruning, after a removal for every begin line of a name that it can take for a dead session's |
| SessionRuns.LookalikeIsTaken | internal/libpq/pgpass.go:142-144 | every file that begins like a copy, whatever made it, is there before some recovery and gone after it |
| SessionProgress.NoDeadlock | internal/libpq/files.go:43-208 | in every reachable state in which a call is in progress some call can go on without an error: the nested root and shared locks do not deadlock, as long as MkdirTemp can find a name |
| SessionEnds.StepRank | internal/libpq/files.go:43-208 | every error-free step of a call brings it closer to its end, a partial write not further from it |
| SessionEnds.CallsAreBounded | internal/libpq/files.go:43-208 | from every reachable state a call that meets no error and no interference makes no more operations, partial writes not counted, than a bound computed from the directories, the lines of the shared file and its copies |
| SessionEnds.CallCompletes | internal/libpq/files.go:43-208 | and if no other call is in a locked part, every run can be continued by the rest of the call to its end, within that bound |
| SessionEnds.CallsSucceed | internal/libpq/files.go:43-105 | a Prepare or an Update of an accepted target and secret that meets no error and no interference returns nil with that secret acknowledged, live sessions of others notwithstanding |
| SessionEnds.CloseSucceeds | internal/libpq/files.go:120-132 | such a Close comes to its end after an error-free removal |
| SessionEnds.OwnerEnds | internal/libpq/files.go:55-66 | a process that owns a session directory, also one whose Prepare failed, ends only through its Close or a kill |
| SessionEnds.FailedPruneEnds | internal/libpq/pgpass.go:157-159 | a recovery ends when the removal of a block fails, also when that fails only after its rename |
| SessionEnds.RemovedWhenEmpty | internal/libpq/files.go:120-132 | but for a new one that could not be locked, a session directory disappears only after the last of its files |
| Redaction.OutExtends | internal/awsdb/transport.go:307-310 | later input changes nothing of the redacted text before a rest shorter than the token |
| Redaction.RedactReplacesPieces | internal/awsdb/transport.go:309 | redaction cuts the text at token occurrences and joins the pieces with the mark |
| Redaction.PiecesAreFree | internal/awsdb/transport.go:309 | the pieces between the replaced occurrences hold no token |
| Redaction.OutIsQuiet | internal/awsdb/transport.go:307-310 | no occurrence of a clean token starts in the settled output, whatever follows, so that marks and text never form a new token |
| Redaction.RedactedIsFree | internal/awsdb/transport.go:309 | redacted text holds no clean token |
| Redaction.RedactResumes | internal/awsdb/transport.go:307-310 | redacting an already redacted and shortened text with new input gives a suffix of the redaction of everything |
| Redaction.RedactedIsFreeIff | internal/awsdb/transport.go:309 | any token never reappears in redacted text if and only if it cannot come back in a mark: wherever it agrees with the mark, what it has before the mark makes an earlier occurrence |
| Redaction.CleanIff | internal/awsdb/transport.go:309 | for a token without brackets this means not to occur in the word of the mark |
| Redaction.TokenComesBack | internal/awsdb/transport.go:309 | a token that can come back does so in the redaction of one of its occurrences between the rest of its own characters |
| LogTails.TextIsRest | internal/awsdb/transport.go:304-332 | after every write the text is the redacted stream without a settled prefix |
| LogTails.TextIsSuffix | internal/awsdb/transport.go:304-332 | for every chunking the text is a suffix of at most 8192 characters of the whole stream's redaction, holds no token, and is all of it or at least 8193 minus the token length long |
| LogTails.LongTokenLeaks | internal/awsdb/transport.go:328-330 | a token over 8193 characters can be cut so that its last 8192 characters are kept unredacted |
| LogTails.TextIsSuffixIff | internal/awsdb/transport.go:113-122 | the text is a suffix of the redaction for all chunkings of all streams if and only if the token is the mark, or is clean and has at most 8193 characters, which the limit on the session response guarantees |
| LogTails.LinesIntact | internal/awsdb/transport.go:311-327 | with no line over the limit, the lines looked at are those of the whole stream and the pending text is its unfinished line |
| LogTails.LongLineTears | internal/awsdb/transport.go:325-327 | every stream with a longer line has a chunking that shows other lines |
| LogTails.LinesIntactIff | internal/awsdb/transport.go:311-327 | every chunking of a stream shows the stream's lines if and only if none is over 8192 characters |
| LogTails.LinesRecompose | internal/awsdb/transport.go:312-317 | the lines and the unfinished rest make up the stream, and no line holds a newline |
| LogTails.StopIsLastReason | internal/awsdb/transport.go:321-323 | the stop reason is the last line that is one, and empty only if there is none |
| LogTails.StopBegins | internal/awsdb/transport.go:321-323 | the stop reason is empty exactly when no line begins with one of the two fixed texts, otherwise it is such a line, and it is never a progress message |
| LogTails.ForwardedOfConcat | internal/awsdb/transport.go:318-320 | the two progress messages are forwarded, in order, and no other line |
| LogTails.ChunksAreImmaterial | internal/awsdb/transport.go:311-327 | the forwarded messages and the stop reason do not depend on the chunking |
| LogTails.TornLineIsForwarded | internal/awsdb/transport.go:318-327 | a line that ends in a progress message after 8193 other characters can be forwarded as that message |
| LogTails.FailureIsReported | internal/awsdb/transport.go:192-195 | however the output was cut, a recovery's final error text becomes the reason the tunnel reports |
| LogTails.SuccessIsReported | internal/awsdb/transport.go:318-323 | a recovery that succeeds forwards both its messages and adds no stop reason, for every chunking |
| LogTails.LogTail.Write | internal/awsdb/transport.go:304-332 | one write keeps text, pending line, stop reason and messages equal to their specifications; the reason begins with one of the two fixed texts, and for short lines it is empty exactly when no line of the stream does |
| LogTails.LogTail.Reason | internal/awsdb/transport.go:334-338 | the reason is the last stop line seen |
| Recovery.ResumeWithin | internal/ssmplugin/recovery.go:88-116 | the retry loop ends as the episode of its calls does, with these start times |
| Recovery.CallsMade | internal/ssmplugin/recovery.go:88-116 | call n is made exactly when all calls before it failed transiently and its turn comes before the deadline; it starts one backoff delay after the previous one returned |
| Recovery.LastCallDecides | internal/ssmplugin/recovery.go:96-113 | the outcome and the end time are those of the last call: success, its terminal reason, or expiry exactly at the deadline |
| Recovery.ResumesIff | internal/ssmplugin/recovery.go:99-102 | nil is returned if and only if a call that is reached succeeds in time |
| Recovery.SuccessInTime | internal/ssmplugin/recovery.go:96-102 | a success of a reached call counts before the deadline and not after it; at the same moment either can be picked |
| Recovery.RetriedIff | internal/ssmplugin/recovery.go:118-141 | an error is retried exactly when it is not the expiry of the process's own credentials, has none of the ten codes and neither HTTP status 401 nor 403 |
| Recovery.CausesAre | internal/ssmplugin/recovery.go:118-134 | which text each group of codes gives |
| Recovery.StatusCausesAre | internal/ssmplugin/recovery.go:135-139 | which text the two statuses give when there is no such code |
| Recovery.RejectedIff | internal/ssmplugin/recovery.go:99-106 | a recovery is rejected exactly when a call that it reaches fails in time with such an error; that call is the last and gives the reason |
| Recovery.RetryableNeverRejects | internal/ssmplugin/recovery.go:99-116 | errors that are retried never reject a recovery |
| Recovery.ErrorNamesCause | internal/ssmplugin/recovery.go:103-105 | the error text names the cause after the fixed beginning |
| Recovery.ReasonsBegin | internal/ssmplugin/recovery.go:78-86 | a line is a stop reason exactly when it begins with one of the two fixed texts, and the progress messages are none |
| Recovery.AtMostFourteenCalls | internal/ssmplugin/recovery.go:58-60 | a minute holds at most 14 calls |
| Recovery.OutageSurvivedIff | internal/ssmplugin/recovery.go:88-116 | with instant calls an outage is survived if and only if it lasts at most 57 seconds, and the tunnel is back less than 5 seconds after it |
| Recovery.ErrorTextIsStopReason | internal/ssmplugin/recovery.go:78-142 | every error text is one short line made of fixed parts that counts as a stop reason |
| Refreshing.SleepUntil | internal/session/session.go:194-208 | the wait sets each timer for what is left but for a minute at most, succeeds exactly when none is interrupted, and then ends at or after the due time, late only by the lateness of its last timer; a past due time succeeds even when cancelled |
| Refreshing.Renew | internal/session/session.go:210-228 | the renewal returns the fetched credential or the error of the step that failed, and publishes exactly a verified and accepted credential that is not an unchanged password |
| Refreshing.Refresh | internal/session/session.go:156-208 | the loop, which waits by SleepUntil, reports, publishes and keeps what its turns imply, begins each turn late by no more than a timer of its sleep, ends at an interrupted sleep, and ignores the last result after a cancellation |
| Refreshing.ReportsAreChanges | internal/session/session.go:168-180 | failures and recovery are reported exactly where the outcome differs from the one before, starting from success |
| Refreshing.NewsIsReported | internal/session/session.go:181-190 | expiries and rotations are reported exactly for the successful turns that bring them |
| Refreshing.CurrentIsPublished | internal/session/session.go:156-192 | at every head of the loop the current secret is the one published last |
| Refreshing.GivenIff | internal/session/session.go:210-228 | what a run of the loop publishes is exactly what its turns fetched as news, verified, and passed to the client without an error |
| Refreshing.BackoffFollowsFailures | internal/session/session.go:168-184 | failure k in a row is followed by min(5 * 2^(k-1), 60) seconds, and a success resets the backoff and schedules by the new credential |
| Refreshing.NextAttempt | internal/session/session.go:161-184 | in every run the next attempt starts after the backoff, or after the polling interval for a password, or three minutes before the expiry but not within 30 seconds, each plus its lateness |
| Refreshing.AttemptTime | internal/session/session.go:161-175 | attempt k of a failing streak starts after the durations and backoffs of the earlier ones |
| Refreshing.FourAttemptsBeforeExpiry | internal/session/session.go:146-176 | a renewal scheduled three minutes before expiry is attempted at least four times before it, with attempts of up to 30 seconds and wake-ups late by less than 55 seconds in all |
| Refreshing.FourAttemptsInEveryRun | internal/session/session.go:146-192 | in every run of the loop: whenever a success or the start leaves a credential that expires in more than three minutes and 30 seconds, the next four attempts start before that expiry even if all of them fail |
| Refreshing.FifthAttemptCanBeLate | internal/session/session.go:146-176 | with full timeouts the fifth attempt starts 15 seconds after the expiry |
| Refreshing.RenewalBeforeExpiryIff | internal/session/session.go:241-251 | the next renewal is due by the expiry if and only if the expiry is at least 30 seconds ahead |
| Refreshing.IAM.Fetch | internal/awsdb/aws.go:157-187 | a credential is returned exactly when retrieval and signing succeed and it lives for at least another minute; it expires after 15 minutes or with the AWS credential if that is earlier, by the provider's expiry or the environment's; status changes are reported once, only to a configured reporter, and name that expiry |
| Refreshing.ScheduledInTimeIff | internal/session/session.go:241-251 | all credentials that passed the one-minute guard are scheduled by their expiry if and only if the schedule is made within 30 seconds of the guard |
| Refreshing.RefreshedIsRenewedInTime | internal/awsdb/aws.go:163-176 | so a renewal that ends within 30 seconds of its guard leaves the loop with the fetched credential and a due time in the future and by its expiry |
| Refreshing.FirstRenewalInTimeIff | internal/session/session.go:104-121 | for all first credentials this holds exactly when startup takes at most 30 seconds after the guard |
| Lifecycle.AlwaysInv | internal/session/session.go:87-144 | every interleaving keeps the phases, the call order, the trace rules and the refresh loop's belief |
| Lifecycle.LoopGoesOn | internal/session/session.go:156-176 | in every execution the refresh loop has ended only if the context is cancelled: no failed renewal ends it |
| Lifecycle.TurnIsRenewal | internal/session/session.go:156-228 | a turn of the refresh goroutine is a turn of the renewal loop: it makes the calls of that renewal and goes back to sleep with its credential, or the old one after a failure |
| Lifecycle.OthersLeaveTheLoop | internal/session/session.go:124-131 | nobody else moves the refresh loop, and a cancellation is never taken back |
| Lifecycle.CancelledBy | internal/session/session.go:124-144 | the context is cancelled only by the caller, the end of the command or that of the tunnel |
| Lifecycle.ClientCloseWaits | internal/session/session.go:132-144 | the client close begins only after the command and the refresh loop have ended |
| Lifecycle.NothingAfterClientClose | internal/session/session.go:118-144 | after the client close began only the rest of the cleanup follows, so no Update does |
| Lifecycle.NothingAfterTunnelClose | internal/session/session.go:98-102 | the tunnel close is the last call and happens once, so no Verify follows |
| Lifecycle.EverythingIsClosed | internal/session/session.go:94-121 | when Run returns, the tunnel was closed if and only if it was opened, an existing client was closed before it, and nothing runs any more |
| Lifecycle.PublishedWasVerified | internal/session/session.go:104-121 | every secret given to Prepare or Update was verified earlier in the run for the same target and local port |
| Lifecycle.CallsAreLocated | internal/session/session.go:104-121 | every credential is verified, prepared and updated for the runner's own target and the port on which its tunnel listens |
| Lifecycle.CurrentIsHeld | internal/session/session.go:156-182 | at every head of the refresh loop its secret is that of Prepare or of the last Update that returned nil, in every interleaving |
| Lifecycle.NoErrorIff | internal/session/session.go:98-144 | Run returns nil if and only if the command succeeded, no tunnel stop was seen first and both closes succeeded |
| Lifecycle.ErrorsAre | internal/session/session.go:94-144 | Run returns exactly the errors that occurred, in order: that of the step of the startup that failed, or those of the tunnel and the command, then those of the two closes |
| Lifecycle.StopIsSeen | internal/session/session.go:139-143 | the tunnel is taken to have stopped only when it has |
| Lifecycle.NeverStuck | internal/session/session.go:124-144 | until Run returns somebody can always take a step |
| Lifecycle.CancelledRunsEnd | internal/session/session.go:124-144 | after a cancellation at most 20 steps remain, so every session ends |
| ShellQuoting.QuotedIsRead | internal/setup/setup.go:357-360 | a quoted value is read as its own characters, whatever follows |
| ShellQuoting.ShellQuoteRoundTrip | internal/setup/setup.go:357-360 | the shell reads a quoted value as one word with the same characters |
| ShellQuoting.CommandIsRead | internal/setup/setup.go:237-247 | the printed command lines are read as exactly their intended words |

## Left out

- SessionTheorems.SharedFileShape: assumes that the user's bytes hold no begin line of a session name in use; with such a line the editor would take the user's text for a block.
- SessionTheorems.LookupFindsSession: assumes that live sessions have different ports; the tunnel's listening socket ensures it.
- AtomicFile.Folder.RemoveLeftovers: is stated for target names without character classes and escapes; these, errors of the pattern, and metacharacters in the directory part are not modelled.
- LogTails.TextIsSuffixIff: does not decide the property for tokens of 8181 to 8193 characters that can come back in a mark, where it depends on what the limit cuts off.
- SessionProgress.NoDeadlock: assumes that an unused session name is left, because the names in use are a finite set here.
- SessionEnds.CallsAreBounded: does not count the steps that write a part of a file, and takes the bound on the files of a session directory as a parameter; nothing bounds a call that other processes keep waiting.
- Recovery.OutageSurvivedIff: is stated for calls that return at once; CallsMade and LastCallDecides cover calls of any duration.
- Refreshing.FourAttemptsBeforeExpiry: counts attempts that each keep within the refresh timeout, which bounds fetching and verifying but not publishing, and under a bound on the wake-ups' total lateness, which a suspended machine exceeds.
- Removing the empty directory of a Prepare that could not lock it is one step; listing, checking and reading files are one step each.
- The protocol of `files.go` and `pgpass.go` is a state machine on values, because its steps interleave across processes; the sequential pieces below it (the line loop, the line printer, the atomic write and its cleanup) are methods.
- The number of removed directories that Recover returns, and the texts of its errors.
- `client.Close` called a second time: it only returns the remembered error.
- `Env`, the connection string, displayed paths and report wording: expressions or one loop.
- Symlink resolution, file modes, fsync, entries of the session storage other than session directories, and errors of `os.Stat` other than a missing or an unusable name.
- Other programs that write the shared password file between a read and a rename.
- Limits of libpq on line length, invalid UTF-8 in `strings.TrimSpace`, and the `localhost` and socket rules of libpq's lookup.
- The mutex of the log filter: writes are taken one at a time. `lastLines` and the exit message of the child.
- Monotonic against wall clock readings, apart from late timers; contexts' own timers inside one call (calls return when they return).
- The process that a hung resume call leaves behind, and the forced exit after a failed recovery.
- AWS and SSM calls, discovery, TLS, the login check, process groups and signals, the setup dialogue and profile parsing: their answers are arbitrary inputs here.
- Shell constructs that quoting never prints: outside quotes only blanks and plain characters are read as words, everything else is refused.
