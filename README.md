# sftpgo core: defender, CLI filesystem helpers, SQL text builders

This Dafny project models three pieces of the SFTPGo server.

- **The in-memory defender** (`defender.dfy`, with `defenderconfig.dfy`, `hostlist.dfy`, `eviction.dfy`, `ipaddr.dfy`, `encoding.dfy`).
  - It keeps a score per client address, computed from recent authentication events.
  - It bans an address whose score reaches the threshold, and bounds both tables with soft and hard limits.
  - Addresses on the safe list are never tracked; addresses on the block list are banned without events.
  - `MemoryDefender` is a class whose two maps, `hosts` and `banned`, its methods update in place.
  - The clock is a parameter `now`: integer nanoseconds, as returned by Go's `UnixNano`.
- **The CLI filesystem** (`clifs.dfy`, with `gopath.dfy` and `strings.dfy`).
  - This virtual filesystem forwards each operation to an external program.
  - The model covers what the back end decides on its own:
    - the argv it builds;
    - how it classifies the status the program writes to stderr;
    - how it maps the program's JSON replies to results;
    - the validation loop of `ReadDir`;
    - the virtual-path mapping, over a model of Go's lexical `path.Clean`/`path.Join`.
- **The SQL text builders** (`sqlqueries.dfy`, with `decimal.dfy`).
  - The driver-dependent placeholder list.
  - Every fixed query as a `Sprintf` value: format pieces plus arguments. The arguments are placeholder slots, table names, the ORDER BY direction or fixed text.
  - The placeholder-index discipline of those queries.
  - The reset-versus-increment quota statements, with their effect on a row.
  - The `IN (...)` id-list builders.

The defender's implementation is not among the modelled files; `common/defender_test.go` pins these behaviours:

- `IsBanned` is not a pure read: on an active ban it pushes the expiry later (test lines 165-171).
- `AddEvent` on an address whose ban is still in force changes nothing (the trace at lines 107-163 rules out an extension).
- Host eviction runs after the new host is inserted, and does not first drop hosts whose events have all expired (lines 129-139 and 283-332).
- The list loader returns no list when both input arrays are empty, not when both are empty after filtering (lines 197-233).

The timing edges, which the tests do not pin, are made explicit:

- an event counts while `dateTime + observationTime` minutes is strictly after `now`;
- a ban is in force while its expiry is strictly after `now`.

## Model

| member | source | states |
|---|---|---|
| DefenderConfig.Validate | common/defender_test.go:335-386 | A disabled config is always accepted. An enabled one is accepted exactly when it is `Sound`: every weight below the threshold, ban time, ban increment and observation time positive, and hard > soft > 0. A rejection names a condition the config actually violates. |
| DefenderConfig.SoundIffNoViolation | common/defender_test.go:335-386 | Sound holds exactly when no error condition holds; this is both directions of the rejection rule. |
| DefenderConfig.ValidatedBounds | common/defender_test.go:335-386 | An accepted enabled config guarantees that no single event reaches the threshold, that durations are positive and that hard > soft > 0. |
| DefenderConfig.ValidateExamples | common/defender_test.go:335-386 | The eleven configurations of TestDefenderConfig, each built on the previous one from the zero value, get its verdicts: the zero value and the last are accepted, the nine between are rejected. The test asks only for an error, so no error kind is claimed. |
| Eviction.MinKey | common/defender_test.go:148-163 | Returns a key of least rank. |
| Eviction.EvictLowest | common/defender_test.go:129-139 | The result is a submap of the input holding exactly min(keep, n) entries, none ranked below a dropped one. |
| Eviction.StrictlyHighestKept | common/defender_test.go:133-139 | An entry that strictly outranks all others survives any such eviction that keeps at least one entry. |
| Eviction.StrictlyLowestDropped | common/defender_test.go:279-281 | An entry ranked strictly below all others is dropped whenever anything is dropped. |
| Defender.Score | common/defender_test.go:86-106 | The effective score. With non-negative weights it is never negative, and it is 0 when no event is inside the window. |
| Defender.Prune | common/defender_test.go:283-332 | Keeps only events of the input that are inside the window, never more than the input. |
| Defender.EntryId | common/defender_test.go:117 | The host ID is twice as long as the address bytes and decodes back to them as Base16 (RFC 4648, section 8). |
| Defender.ScoreAppend | common/defender_test.go:86-106 | A new event adds its weight to the score, and joins the pruned events, exactly when it is inside the window. |
| Defender.PruneKeepsScore | common/defender_test.go:283-328 | Pruning to the window keeps the score and leaves only events inside the window. |
| Defender.ExpiredEventsScoreZero | common/defender_test.go:328-332 | Events that have all left the window score 0. |
| Defender.ScoreDecays | common/defender_test.go:283-332 | With non-negative weights, the score at a later time is never higher. |
| Defender.ExampleScore | common/defender_test.go:283-299 | Events 5, 3 and 0 minutes old with a one-minute window score 1. The stored total is ignored. |
| Defender.PruneEvents | common/defender_test.go:86-122 | The compaction loop returns the events inside the window and their total score. |
| Defender.HostRanks | common/defender_test.go:129-139 | Ranks every tracked host, by its latest event time. |
| Defender.Unexpired | common/defender_test.go:266-272 | The bans in force are a sub-table of the ban table. |
| Defender.HostCleanupBounded | common/defender_test.go:129-134 | After host cleanup that follows one insertion, the table is within the hard limit and only old hosts remain. |
| Defender.BanCleanupBounded | common/defender_test.go:148-152 | After ban cleanup that follows one insertion, the table is within the hard limit and only old bans remain. |
| Defender.SoonestBanDropped | common/defender_test.go:274-281 | When bans must be cut to the soft limit, the soonest-expiring live ban is removed. |
| Defender.OldestHostDropped | common/defender_test.go:283-332 | When host cleanup runs, the host with the strictly oldest latest event is removed. |
| Defender.NewestHostSurvives | common/defender_test.go:133-139 | The host with the strictly newest latest event survives host cleanup, with its record unchanged. |
| Defender.AddressesAppend | common/defender_test.go:90-118 | Appending an entry adds exactly its address to the listed addresses. |
| Defender.MemoryDefender.constructor | common/defender_test.go:65-76 | A new defender has empty tables, the given config and lists, and satisfies `Valid`. |
| Defender.MemoryDefender.GetScore | common/defender_test.go:89-111 | Returns 0 for an untracked address. For a tracked one, the sum of the weights of its events in the window. |
| Defender.MemoryDefender.GetBanTime | common/defender_test.go:99-155 | Present exactly for a banned address, with that address's expiry. |
| Defender.MemoryDefender.GetHost | common/defender_test.go:77-78 | Fails exactly for an address in neither table. A banned address has score 0 and its ban time. A tracked one has its live score and no ban time. |
| Defender.MemoryDefender.GetHosts | common/defender_test.go:76-118 | Lists every banned and every tracked address once, each with the entry GetHost gives. |
| Defender.MemoryDefender.IsBanned | common/defender_test.go:69-73 | True exactly for a ban in force or a block-listed address. A ban in force becomes strictly later by `banExtension`, and nothing else changes (lines 165-171). |
| Defender.MemoryDefender.DeleteHost | common/defender_test.go:173-174 | True exactly when the address was in a table. It is then removed from both, so a second call returns false. |
| Defender.MemoryDefender.CleanupHosts | common/defender_test.go:283-332 | Up to the hard limit the table is unchanged. Above it, exactly soft-limit hosts remain: those with the most recent latest events. |
| Defender.MemoryDefender.CleanupBanned | common/defender_test.go:266-281 | Up to the hard limit the table is unchanged. Above it, expired bans go, then the soonest-expiring bans until soft-limit entries remain. |
| Defender.MemoryDefender.ForgetBan | common/defender_test.go:148-155 | An expired ban is removed before a new event is recorded. Nothing else changes, and the limits stay respected. |
| Defender.MemoryDefender.BanHost | common/defender_test.go:107-122 | The host record goes, a ban of banTime minutes starts now, ban cleanup runs, and the limits stay respected. |
| Defender.MemoryDefender.TrackHost | common/defender_test.go:129-139 | A known host's record is replaced. A new host is inserted and host cleanup runs; the limits stay respected. |
| Defender.MemoryDefender.AddEvent | common/defender_test.go:80-163 | Listed addresses and bans in force change nothing, so safe-listed addresses are never tracked. Otherwise the new score is recomputed from the events in the window. At the threshold the address moves to the ban table; below it the record is stored. No address is ever in both tables, and neither table exceeds the hard limit. |
| Defender.NewInMemoryDefender | common/defender_test.go:59-68 | Fails exactly when validation rejects the config, with that error. Otherwise returns a fresh valid defender with empty tables. |
| HostLists.IsListed | common/defender_test.go:69-73 | An exact address in the list is listed. Anything else is listed only if it parses as an address, inside one of the networks. |
| HostLists.Listed | common/defender_test.go:69-83 | An absent list lists nothing; a present one lists what IsListed says. |
| HostLists.ParsedNetworks | common/defender_test.go:221-233 | Keeps at most as many networks as there are entries. |
| HostLists.ParsedNetworksAppend | common/defender_test.go:221-233 | One more entry adds its network exactly when it parses. |
| HostLists.LoadHostList | common/defender_test.go:197-233 | No list exactly when both arrays are empty. Otherwise the valid addresses and, in order, the valid networks. |
| HostLists.LoadedListsOnlyAddresses | common/defender_test.go:73 | A loaded list never lists a string that is not an address, such as "invalid ip". |
| HostLists.InvalidEntriesListNothing | common/defender_test.go:211-233 | A file of invalid entries only gives a present list that lists nothing. |
| HostLists.NoValidNetworks | common/defender_test.go:221-233 | Invalid networks only give no ranges. |
| IpAddr.ParseIPv4 | common/defender_test.go:69-73 | A parsed address has four bytes. |
| IpAddr.ParseFormat | common/defender_test.go:69-73 | Every four-byte address has a dotted literal that parses back to it. |
| IpAddr.FormatParse | common/defender_test.go:69-73 | A literal that parses is the canonical rendering of its address. |
| IpAddr.ParseCIDR | common/defender_test.go:21-28 | A parsed network has a four-byte base and a prefix of at most 32 bits (RFC 4632, section 3.1). |
| IpAddr.ContainsByOctets | common/defender_test.go:71-72 | For a whole-octet prefix, agreeing on the leading octets means containment. |
| IpAddr.ValueBound | common/defender_test.go:549-556 | The big-endian value of n bytes is below 256^n. |
| IpAddr.Incremented | common/defender_test.go:549-556 | The next address keeps the length. |
| IpAddr.IncrementedExact | common/defender_test.go:549-556 | The next address is value + 1, or 0 at the top. |
| IpAddr.IncrementedValue | common/defender_test.go:549-556 | The next address is (value + 1) mod 256^n, with carry and wrap-around. |
| IpAddr.Inc | common/defender_test.go:549-556 | The in-place loop leaves the array equal to the incremented address. |
| Encoding.EncodeRune | common/defender_test.go:117 | UTF-8 takes 1 to 4 bytes, and exactly 1 for ASCII. |
| Encoding.Utf8Ascii | common/defender_test.go:117 | The bytes of an ASCII address are its character codes. |
| Encoding.HexEncode | common/defender_test.go:117 | Base16 doubles the length. |
| Encoding.HexDecodePair | common/defender_test.go:117 | Decoding a byte's two digits gives that byte in front of the rest. |
| Encoding.HexRoundTrip | common/defender_test.go:117 | Decoding the host ID gives back the address bytes (RFC 4648, section 8). |
| Encoding.HexInjective | common/defender_test.go:117 | Distinct addresses have distinct IDs. |
| CliFs.IntField | vfs/clifs.go:510-511 | An absent or null int key keeps its prior value. Any other value decodes exactly when it is an integer literal (no fraction, no exponent) within the int64 range, and then gives that integer. |
| CliFs.NonIntegerStatusIsJsonError | vfs/clifs.go:510-513 | A status with `"type": 2.0`, or with a code beyond the int64 range, fails to decode, so getErrorFromStatus returns the JSON error. |
| CliFs.StringField | vfs/clifs.go:499-511 | An absent or null string key keeps its prior value. A JSON string gives its text. Any other value fails to decode. |
| CliFs.DecodeStatus | vfs/clifs.go:510-513 | null leaves the default type Unknown, and a non-object fails. An object decodes exactly when its "type" and "code" decode as IntField says and its "message" as StringField says, and gives those three values. |
| CliFs.DecodeFullStatus | vfs/clifs.go:510-513 | `{"type": t, "code": c, "message": s}` with 64-bit integers t and c decodes to exactly t, c and s, whatever other keys it holds. An object without the three keys keeps the defaults: Unknown, 0 and "". |
| CliFs.IsNotExist | vfs/clifs.go:290-295 | A plain type check: nil and any wrapped error are not recognised, and neither is the unsupported error. |
| CliFs.IsPermission | vfs/clifs.go:297-302 | A plain type check: nil and any wrapped error are not recognised, and neither is the unsupported error. |
| CliFs.IsNotSupported | vfs/clifs.go:304-310 | False for nil. A wrapped error is not equal to the unsupported error, so it is not recognised either. |
| CliFs.ClassifiersExclusive | vfs/clifs.go:290-310 | The three classifiers are false for nil and never hold together. |
| CliFs.GetErrorFromStatus | vfs/clifs.go:505-532 | Empty stderr gives no error and undecodable stderr a JSON error. For type Error: code NotExists satisfies IsNotExist, PermissionDenied satisfies IsPermission, any other code gives Feedback with the message. Unknown gives "Unknown status error". Success and Warning give no error. |
| CliFs.MissingTypeIsUnknown | vfs/clifs.go:510-528 | A status without "type" reads as Unknown, whatever its code. |
| CliFs.CallArgv | vfs/clifs.go:441-448 | Undecodable extra args fail. Otherwise the argv is the extra args, then the operation name, then its arguments in order. |
| CliFs.Call | vfs/clifs.go:441-465 | Success returns stdout. A failed run returns the stderr status error when there is one. Otherwise it returns the run error wrapped with the command line. |
| CliFs.ToMap | vfs/clifs.go:432-439 | Only an object (a map) or null (nil) decodes; anything else is a wrapped JSON error. |
| CliFs.CallMustMap | vfs/clifs.go:408-416 | Call errors pass through; otherwise the output goes through toMap. |
| CliFs.CallCanMap | vfs/clifs.go:418-430 | As callMustMap, except that empty output gives no map and no error. |
| CliFs.EmptyOutputConvention | vfs/clifs.go:408-430 | On empty output the two calls differ exactly: callCanMap gives (nil, nil), callMustMap a JSON error. |
| CliFs.TruncateToInt | vfs/clifs.go:481 | Go's int64 conversion truncates toward zero. |
| CliFs.NewFileInfoFromMap | vfs/clifs.go:467-484 | Succeeds exactly when the five keys have the right JSON types, and carries their values. Otherwise the recovered cast error. |
| CliFs.Lstat | vfs/clifs.go:90-102 | Call errors come back wrapped. No map means not-exists with a message naming the file. Otherwise the FileInfo of the map. |
| CliFs.Stat | vfs/clifs.go:76-88 | As Lstat, but through callMustMap, so only a JSON null means not-exists. |
| CliFs.LstatOfEmptyOutput | vfs/clifs.go:92-99 | A program that succeeds silently makes Lstat report not-exists. |
| CliFs.Cause | vfs/clifs.go:80 | The cause under the wraps is never itself a wrap. |
| CliFs.WrappedNotExistsMissed | vfs/clifs.go:92-95 | As written: a NotExists status from the program, wrapped by Lstat, is not recognised by IsNotExist. |
| CliFs.NotExistsStatusRecognised | vfs/clifs.go:290-295 | Corrected: looking through the wraps, a NotExists status reads as not-exists after both Lstat and Stat. |
| CliFs.Rename | vfs/clifs.go:228-232 | Calls "rename" with source then target, and returns no error exactly when the call succeeds. |
| CliFs.IsDirArg | vfs/clifs.go:236-239 | "1" exactly for a directory, "0" exactly otherwise. |
| CliFs.Remove | vfs/clifs.go:234-242 | Calls "remove" with the name and the directory flag, and returns exactly the call's error. |
| CliFs.RemoveArgvLayout | vfs/clifs.go:236-241 | The argv is the extra args, "remove", the name, then "1" exactly for a directory. |
| CliFs.OpenArgv | vfs/clifs.go:105-112 | Undecodable extra args fail. Otherwise the argv is the extra args, "open", the name, then a decimal that parses back to the offset. |
| CliFs.LocalResult | vfs/clifs.go:191-247 | MkdirAll succeeds. Symlink, Readlink, Chown, Chmod, Chtimes, Truncate, Mkdir, Walk and GetDirSize return the unsupported error. |
| CliFs.NotSupportedExactly | vfs/clifs.go:304-310 | IsNotSupported holds exactly for the unsupported error, and excludes the other classifiers. |
| CliFs.GetRelativePath | vfs/clifs.go:331-345 | The result is absolute when there is no mount path or the mount path is absolute. With a mount path it is that path joined with the rooted name. |
| CliFs.RootedRel | vfs/clifs.go:334-340 | The cleaned name is made absolute. |
| CliFs.RelativePathOfDot | vfs/clifs.go:334-343 | "." maps to "/", or to the mount path joined with "/". |
| CliFs.RelativePathOfRooted | vfs/clifs.go:333-345 | Without a mount path, a rooted name maps to its cleaned form, which is already clean. |
| CliFs.ResolvePath | vfs/clifs.go:359-368 | After the mount-path prefix is stripped, "/" + result is the path itself when it is absolute. Otherwise it is the path cleaned under "/". It never fails. |
| CliFs.ResolvedRelativeStaysInside | vfs/clifs.go:364-367 | A relative path resolves to segments that contain no "..". |
| CliFs.ResolveRelativePath | vfs/clifs.go:333-368 | ResolvePath undoes GetRelativePath for rooted names, up to the leading "/". |
| CliFs.ItemResult | vfs/clifs.go:260-268 | A non-map item is reported with its 1-based index. A map that fails to convert has its error wrapped with that index. Otherwise the item's FileInfo. |
| CliFs.ConvertItems | vfs/clifs.go:257-270 | Succeeds exactly when every item converts, giving one FileInfo per item in order. Otherwise the error of the first item that fails. |
| CliFs.ReadDir | vfs/clifs.go:249-278 | Call errors pass through. A missing "list" key and a non-array each give their own error. Otherwise the result is that of the item loop. |
| GoPath.PathJoin | vfs/clifs.go:342 | path.Join is empty exactly when all elements are empty. |
| GoPath.CleanKeepsRooted | vfs/clifs.go:334-338 | Clean keeps a path absolute or relative. |
| GoPath.CleanIdempotent | vfs/clifs.go:334 | Cleaning twice is cleaning once. |
| GoPath.CleanNonEmpty | vfs/clifs.go:334 | Clean never returns "". |
| GoPath.RootedCleanHasNoParent | vfs/clifs.go:365 | A cleaned rooted path has no ".." segment. |
| GoPath.CleanOfDot | vfs/clifs.go:335 | Clean(".") and Clean("") are ".". |
| SqlQueries.GetSQLPlaceholders | dataprovider/sqlqueries.go:19-29 | Exactly 20 entries, entry i being the i-th placeholder of the driver. |
| SqlQueries.PlaceholderReadsBack | dataprovider/sqlqueries.go:22-26 | For PGSQL and Cockroach, entry i is "$" followed by a decimal that parses to i + 1. For every other driver it is "?". |
| SqlQueries.PlaceholdersDistinct | dataprovider/sqlqueries.go:22-23 | Numbered placeholders never repeat. |
| SqlQueries.AscendingSlots | dataprovider/sqlqueries.go:44-54 | Under the ascending discipline, the slots read next, next + 1, and so on. |
| SqlQueries.SlotListed | dataprovider/sqlqueries.go:31-228 | Every placeholder argument appears in the query's slot list. |
| SqlQueries.DisciplinedSlots | dataprovider/sqlqueries.go:31-228 | A disciplined query with k placeholders binds exactly slots 0..k-1 in order, all below 18, so within the 20 generated. |
| SqlQueries.QuotaUpdateShape | dataprovider/sqlqueries.go:77-84 | The quota statement binds the table, then slots 0-3. |
| SqlQueries.AdminByUsernameQuery | dataprovider/sqlqueries.go:31-33 | The text and arguments of getAdminByUsernameQuery. The query is well formed and binds one placeholder, slot 0. |
| SqlQueries.ListQuery | dataprovider/sqlqueries.go:35-38 | The paged listing shared by the three list getters: well formed, binding two placeholders in order, slots 0 and 1. ListQueryText gives its text. |
| SqlQueries.AdminsQuery | dataprovider/sqlqueries.go:35-38 | getAdminsQuery: the admin listing ordered by username, binding slots 0 and 1. |
| SqlQueries.DumpAdminsQuery | dataprovider/sqlqueries.go:40-42 | getDumpAdminsQuery: well formed, binding no placeholder. |
| SqlQueries.AdminWriteArgs | dataprovider/sqlqueries.go:44-54 | The arguments shared by the admin insert and update: the table, then placeholders in ascending order from 0, eight in all. |
| SqlQueries.AddAdminQuery | dataprovider/sqlqueries.go:44-48 | getAddAdminQuery: well formed, binding eight placeholders in order, slots 0-7. |
| SqlQueries.UpdateAdminQuery | dataprovider/sqlqueries.go:50-54 | getUpdateAdminQuery: well formed, binding eight placeholders in order, slots 0-7; slot 7 is the username of the WHERE clause. |
| SqlQueries.DeleteAdminQuery | dataprovider/sqlqueries.go:56-58 | getDeleteAdminQuery: well formed, binding slot 0 only. |
| SqlQueries.UserByUsernameQuery | dataprovider/sqlqueries.go:60-62 | getUserByUsernameQuery: well formed, binding slot 0 only. |
| SqlQueries.UsersQuery | dataprovider/sqlqueries.go:64-67 | getUsersQuery: the user listing ordered by username, binding slots 0 and 1. |
| SqlQueries.DumpUsersQuery | dataprovider/sqlqueries.go:69-71 | getDumpUsersQuery: well formed, binding no placeholder. |
| SqlQueries.DumpFoldersQuery | dataprovider/sqlqueries.go:73-75 | getDumpFoldersQuery: well formed, binding no placeholder. |
| SqlQueries.QuotaUpdate | dataprovider/sqlqueries.go:77-84 | The quota statement shared by users and folders, with the source's text and line breaks for both variants. It is well formed and binds four placeholders in order, slots 0-3 (also lines 157-164). |
| SqlQueries.UpdateQuotaQuery | dataprovider/sqlqueries.go:77-84 | getUpdateQuotaQuery: the quota statement on the users table keyed by username, binding slots 0-3. |
| SqlQueries.UpdateLastLoginQuery | dataprovider/sqlqueries.go:86-88 | getUpdateLastLoginQuery: well formed, binding slots 0 and 1 in order. |
| SqlQueries.QuotaQuery | dataprovider/sqlqueries.go:90-93 | getQuotaQuery: well formed, binding slot 0 only. |
| SqlQueries.UserWriteArgs | dataprovider/sqlqueries.go:95-112 | The arguments shared by the user insert and update: the table, then placeholders in ascending order from 0, eighteen in all. |
| SqlQueries.AddUserQuery | dataprovider/sqlqueries.go:95-103 | getAddUserQuery, with its literal zeros: well formed, binding eighteen placeholders in order, slots 0-17. |
| SqlQueries.UpdateUserQuery | dataprovider/sqlqueries.go:105-112 | getUpdateUserQuery: well formed, binding eighteen placeholders in order, slots 0-17; 17 is the highest index any query uses. |
| SqlQueries.DeleteUserQuery | dataprovider/sqlqueries.go:114-116 | getDeleteUserQuery: well formed, binding slot 0 only. |
| SqlQueries.FolderByNameQuery | dataprovider/sqlqueries.go:118-120 | getFolderByNameQuery: well formed, binding slot 0 only. |
| SqlQueries.CheckFolderNameQuery | dataprovider/sqlqueries.go:122-124 | checkFolderNameQuery: well formed, binding slot 0 only. |
| SqlQueries.FolderInsertArgs | dataprovider/sqlqueries.go:126-130 | The arguments of the folder insert: the table, then placeholders in ascending order from 0, seven in all. |
| SqlQueries.AddFolderQuery | dataprovider/sqlqueries.go:126-130 | getAddFolderQuery: well formed, binding seven placeholders in order, slots 0-6. |
| SqlQueries.UpdateFolderQuery | dataprovider/sqlqueries.go:132-135 | getUpdateFolderQuery: well formed, binding four placeholders in order, slots 0-3. |
| SqlQueries.DeleteFolderQuery | dataprovider/sqlqueries.go:137-139 | getDeleteFolderQuery: well formed, binding slot 0 only. |
| SqlQueries.ClearFolderMappingQuery | dataprovider/sqlqueries.go:141-144 | getClearFolderMappingQuery: well formed, binding slot 0 only. |
| SqlQueries.AddFolderMappingQuery | dataprovider/sqlqueries.go:146-150 | getAddFolderMappingQuery: well formed, binding five placeholders in order, slots 0-4, with the users table between slots 3 and 4. |
| SqlQueries.FoldersQuery | dataprovider/sqlqueries.go:152-155 | getFoldersQuery: the folder listing ordered by name, binding slots 0 and 1. |
| SqlQueries.UpdateFolderQuotaQuery | dataprovider/sqlqueries.go:157-164 | getUpdateFolderQuotaQuery: the quota statement on the folders table keyed by name, binding slots 0-3. |
| SqlQueries.QuotaFolderQuery | dataprovider/sqlqueries.go:166-169 | getQuotaFolderQuery: well formed, binding slot 0 only. |
| SqlQueries.DatabaseVersionQuery | dataprovider/sqlqueries.go:206-208 | getDatabaseVersionQuery: well formed, binding no placeholder. |
| SqlQueries.UpdateDBVersionQuery | dataprovider/sqlqueries.go:210-212 | getUpdateDBVersionQuery: well formed, binding slot 0 only. |
| SqlQueries.CompatUserV10FsConfigQuery | dataprovider/sqlqueries.go:214-216 | getCompatUserV10FsConfigQuery: well formed, binding no placeholder. |
| SqlQueries.UpdateCompatUserV10FsConfigQuery | dataprovider/sqlqueries.go:218-220 | updateCompatUserV10FsConfigQuery: well formed, binding slots 0 and 1 in order. |
| SqlQueries.CompatFolderV10FsConfigQuery | dataprovider/sqlqueries.go:222-224 | getCompatFolderV10FsConfigQuery: well formed, binding no placeholder. |
| SqlQueries.UpdateCompatFolderV10FsConfigQuery | dataprovider/sqlqueries.go:226-228 | updateCompatFolderV10FsConfigQuery: well formed, binding slots 0 and 1 in order. |
| SqlQueries.AdminQueries | dataprovider/sqlqueries.go:31-58 | Every admin query follows the placeholder discipline. |
| SqlQueries.UserQueries | dataprovider/sqlqueries.go:60-116 | Every user query, both quota variants included, follows the placeholder discipline. |
| SqlQueries.FolderQueries | dataprovider/sqlqueries.go:73-169 | Every folder and mapping query, both quota variants included, follows the placeholder discipline. |
| SqlQueries.SchemaQueries | dataprovider/sqlqueries.go:206-228 | The version and compatibility queries follow the placeholder discipline. |
| SqlQueries.FixedQueriesFit | dataprovider/sqlqueries.go:31-228 | Every fixed query binds exactly slots 0..k-1 in order, each below 18, so within the 20 that getSQLPlaceholders generates. |
| SqlQueries.ListQueryText | dataprovider/sqlqueries.go:35-38 | A listing renders the order verbatim after ORDER BY, then LIMIT with placeholder 0 and OFFSET with placeholder 1 (also lines 64-67 and 152-155). |
| SqlQueries.QuotaColumnsDistinct | dataprovider/sqlqueries.go:79-82 | The three quota columns are distinct. |
| SqlQueries.ApplyThree | dataprovider/sqlqueries.go:79-82 | A three-item SET list is its items applied left to right. |
| SqlQueries.QuotaUpdateRow | dataprovider/sqlqueries.go:77-84 | The SET list of either variant sets the three quota columns as written out by QuotaRow. |
| SqlQueries.QuotaUpdateEffect | dataprovider/sqlqueries.go:77-84 | With reset the size and files are assigned; without it they are added to the stored values. The update time is assigned, and no other column changes (also lines 157-164). |
| SqlQueries.QuotaRowIncrementsAdd | dataprovider/sqlqueries.go:82-83 | Two incremental rows are one incremental row by the sums. |
| SqlQueries.QuotaIncrementsAdd | dataprovider/sqlqueries.go:82-83 | Two incremental updates are one update by the sums. |
| SqlQueries.QuotaResetForgets | dataprovider/sqlqueries.go:78-80 | A reset erases whatever update came before it. |
| SqlQueries.IdTexts | dataprovider/sqlqueries.go:179 | Gives one decimal text per id, in order. |
| SqlQueries.IdTextsStep | dataprovider/sqlqueries.go:173-180 | One more id adds its decimal text at the end. |
| SqlQueries.BuildIdList | dataprovider/sqlqueries.go:172-183 | The builder loop yields "" for no ids. Otherwise "(" + the ids joined by "," + ")". |
| SqlQueries.ItoaHasNoComma | dataprovider/sqlqueries.go:179 | A decimal contains no comma. |
| SqlQueries.IdListReadsBack | dataprovider/sqlqueries.go:171-204 | A non-empty list is parenthesised, holds exactly n - 1 commas, and splits back into texts that parse to the ids in order. |
| SqlQueries.NoSlots | dataprovider/sqlqueries.go:184-186 | A query without placeholder arguments is disciplined and binds nothing. |
| SqlQueries.IdList | dataprovider/sqlqueries.go:171-204 | The IN list is "" exactly for no ids; otherwise it is at least three characters, opening with "(" and closing with ")". |
| SqlQueries.RelatedFoldersQuery | dataprovider/sqlqueries.go:184-186 | The Sprintf of getRelatedFoldersForUsersQuery around a given IN list: the list is its one text argument, and it binds no placeholder. |
| SqlQueries.RelatedUsersQuery | dataprovider/sqlqueries.go:201-203 | The Sprintf of getRelatedUsersForFoldersQuery around a given IN list: the list is its one text argument, and it binds no placeholder. |
| SqlQueries.RelatedFoldersForUsersQuery | dataprovider/sqlqueries.go:171-187 | The query carries the IN list of the users' ids and binds no placeholder. |
| SqlQueries.RelatedUsersForFoldersQuery | dataprovider/sqlqueries.go:189-204 | The query carries the IN list of the folders' ids and binds no placeholder. |
| Decimal.DigitChar | dataprovider/sqlqueries.go:23 | The character is a digit whose value is d. |
| Decimal.NatDigits | dataprovider/sqlqueries.go:179 | Gives non-empty digits without a leading zero. |
| Decimal.Itoa | dataprovider/sqlqueries.go:179 | A non-negative number is rendered as digits only; a negative one gets a leading '-'. |
| Decimal.NatDigitsValue | dataprovider/sqlqueries.go:179 | The digits read back as the number. |
| Decimal.NatDigitsOfValue | dataprovider/sqlqueries.go:179 | A digit string without a leading zero is the rendering of its own value. |
| Decimal.ItoaRoundTrip | dataprovider/sqlqueries.go:179 | Parsing the rendering gives the integer back. |
| Decimal.ItoaInjective | dataprovider/sqlqueries.go:179 | Distinct integers render differently. |
| Strings.SplitJoin | dataprovider/sqlqueries.go:171-204 | Splitting undoes joining when no part contains the separator. |
| Strings.JoinSplit | dataprovider/sqlqueries.go:171-204 | Joining undoes splitting. |
| Strings.JoinAppend | dataprovider/sqlqueries.go:174-179 | Appending a part adds one separator and the part. |
| Strings.JoinSeparatorCount | dataprovider/sqlqueries.go:171-204 | Joining n parts without the separator puts in exactly n - 1 separators. |
| Strings.TrimPrefix | vfs/clifs.go:362 | Removes the prefix exactly when the string starts with it. |

## Left out

- Running the external program of the CLI filesystem is left out: process execution, pipes, goroutines and context cancellation (vfs/clifs.go:105-189, 441-465). Its outcome is an input: the failure flag, stdout, stderr and their decoded JSON.
- Create and the streaming part of Open are left out (vfs/clifs.go:113-189, 144-189): they are pipes and goroutines. Only Open's argv is modelled.
- GetMimeType, ScanRootDirContents, GetAvailableDiskSize and the constant getters are left out. They make no decision, or call the program in the same way as Stat.
- CheckRootPath is left out: it delegates to the OS filesystem, which is not part of this model.
- JSON decoding is taken as given, and all decoder errors are one `JsonError`. Go's case-insensitive matching of struct field names is not modelled: keys must match exactly.
- RFC 3339 parsing of modTime is left out: its text is kept.
- Go's float64 is modelled as a real number, so `sizeInBytes` is converted by exact truncation.
- CliFs.NewFileInfoFromMap: the panic message is one fixed error. The source distinguishes a panic carrying an error from one that does not.
- IPv6 addresses and networks are left out. Parsing, containment and the defender ID cover IPv4 only.
- Integer widths (int64 ids and offsets, time.Time) are unbounded integers. Nothing wraps around, except the byte arithmetic in `inc`, which is explicit.
- CliFs.IntField: Go's `int` is taken to be 64 bits wide, as on the 64-bit platforms the server is built for; on a 32-bit build the range check would be narrower.
- Defender.MemoryDefender.IsBanned: the ban extension is a positive parameter: the amount (derived from BanTimeIncrement in the implementation, which is not part of this model) is not visible.
- Defender.MemoryDefender.GetHosts: the order of the listed entries is not stated. Go iterates maps in random order.
- The cidranger trie and the benchmarks are left out. Network membership is a bit-prefix test over the list's networks.
- File reading in the host-list loader is left out: missing file, directory, permissions, oversized file and JSON errors. The loader takes the decoded file.
- newInMemoryDefender's failure on missing list files is left out, for the same reason.
- Locking, metrics and logging of the defender are left out.
- Wall-clock time is left out: `now` is a parameter.
- common/connection_test.go is not part of this model: it drives the real filesystem and an implementation not shown.
- The SQL text of the column lists is opaque constant text. Executing SQL is left out; its effect on a row is modelled only for the quota statements.
- Eviction ties are broken arbitrarily, where Go's sort.Sort is unstable. The model states only which ranks survive.

## Findings

| source | as written | input that shows it | evidently intended | confidence | as-written member | corrected member |
|---|---|---|---|---|---|---|
| vfs/clifs.go:92-95 | Lstat (and Stat) wrap every call error with errors.Wrap. IsNotExist (lines 292-295) checks only the outer error's type. | The program fails with stderr `{"type":2,"code":1}`: call returns a notExistsError, Lstat wraps it, and IsNotExist gives false. | A NotExists status from the program reads as not-exists, e.g. by checking errors.Cause. | medium, not executed | CliFs.WrappedNotExistsMissed | CliFs.NotExistsStatusRecognised |
