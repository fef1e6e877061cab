# cf — a verified model of the Cloudflare DNS command-line tool

`cf` views and edits the DNS records of a Cloudflare account. It runs
interactively (a `cf> ` prompt, one command per line) when it is given no
arguments. When it is given arguments, it rebuilds them into one command
line and runs that command once. This project models the program's own
logic in `cf.go` and proves what that logic promises. Everything behind
the program's calls is reduced to what `cf.go` relies on: the Cloudflare
client, the command-tree library and the terminal.

Files, one Dafny module each:

- `wrappers.dfy` (`Wrappers`) — `Option`.
- `text.dfy` (`Text`) — `IndexOf`, the first position of a character in a string.
- `args.dfy` (`Args`) — `fixupArgs`: requoting the process arguments into a command line. It also has a reference quote-aware split, used to prove that the rebuilt line reads back as the original arguments.
- `console.dfy` (`Console`) — `readString` / `readHiddenString`: one line taken off the unread terminal input, with its trailing `"\r\n"` characters trimmed.
- `records.dfy` (`Records`) — the DNS record store and the pure decisions `cf.go` takes over it:
  - the list filter;
  - the add-or-update choice of `addOrUpdateRecord`;
  - the effect of `cmdDelete`'s delete loop;
  - the column widths and row layout of `cmdListDomains`.
- `provider.dfy` (`Provider`) — the remote account as a class:
  - the records, the next record identifier and a log of every call made;
  - the zone table;
  - an oracle telling which calls the remote refuses.
- `cli.dfy` (`Cli`) — the program as a class, `Cli.Program`:
  - its fields are the session cache (`activeAPI`, `activeZone`), the unread input and the printed output;
  - its methods are the command handlers, `processCmd`, `runInteractive` and `main`.

Printed output is recorded as a sequence of `Note`s: which message was
printed, with its data, but not its wording. Remote calls are recorded in
`Account.log`. So "prints usage and makes no remote call" and "makes at
most a zone lookup" can be stated exactly. `SessionCalls()` is the calls
`getZoneIdentifier` makes at the start of a command, as `ZoneFrom` gives
them (none for a cached zone); each handler's log is exactly those calls
followed by its own. `Quiet(extra)` says only the notes `extra` were
printed and nothing else changed.

`addOrUpdateRecord` looks only at the first record the list call returns
(`recs[0]`). When several records share the type and name, the others are
neither updated nor reported. The model keeps that behaviour
(`Records.Decide`, `Records.DecideLooksAtFirstOnly`).

The add-or-update is idempotent in this sense: after an accepted change, a
second run with the same content finds the content in place and submits
nothing. This needs BOTH runs' list calls to succeed. When a list call
fails, `addOrUpdateRecord` creates a record whatever the store already
holds, as `cf.go:431-451` is written. If the first run's list fails while a
record of that type and name already exists holding other content, the
first run adds a second record (when the create is taken), and the second run then finds the older record first and updates it
(`Records.FailedListNotIdempotent`).

Two more behaviours of `cf.go` are kept as written:

- An empty argument does not survive `fixupArgs`: it is written as
  nothing, so `cf txt foo ""` becomes the line `txt foo `, which reads back
  as two arguments (`Args.EmptyArgumentDropped`).
- An empty name filter is no filter. `delete A ""` typed at the prompt
  lists, and so deletes, every A record of the zone
  (`Records.EmptyNameMatchesAll`). Given as process arguments, `cf delete
  A ""` loses its empty argument and prints usage instead.

The session cache is specified by two functions on `Cli.Program`.
`ApiFrom` is what a call of `getAPI` comes to from a given cache state and
unread input. `ZoneFrom` is the same for `getZoneIdentifier`.
`GetAPI`, `GetZoneIdentifier` and `Connect` are proved equal to them:
the same handle and zone, the same printed notes, the same unread input and
the same remote calls.

Each command handler's whole effect is one predicate over the state before
and after it, defined once and used both by the handler and by the
dispatch: `ListShown`, `ZoneChosen`, `RecordPut`, `RecordCreated` and
`RecordsDeleted`, each built on `ZoneSession` or `ApiSession` (the
session cache, the unread input and, when no zone or handle results, the
printed notes and calls are exactly those `ZoneFrom` / `ApiFrom` give).
`Handled(c, args)` is the dispatch table: usage and nothing else when the
argument count is wrong, otherwise the effect of `c`'s handler. `Dispatch`,
`ProcessCmd` and the non-interactive `Run` are proved to have the effect
`Handled` gives for the command the line names.

## Model

| member | source | states |
|---|---|---|
| Args.Requote | cf.go:149-154 | one entry per argument, in order; an argument is wrapped in double quotes exactly when it contains a space or a tab, otherwise it is unchanged |
| Args.FixupArgs | cf.go:146-157 | the loop over the arguments yields the requoted arguments joined with single spaces (zero arguments give "") |
| Args.Quote | cf.go:150-152 | one argument as written back: two characters longer exactly when it holds a space or a tab |
| Args.JoinSpaced | cf.go:156 | the parts separated by single spaces, as `strings.Join(parts, " ")` writes them (its shape is stated by JoinSpacedSmall and RebuiltLength) |
| Args.JoinSpacedSmall | cf.go:156 | joining no parts gives ""; joining one part gives that part |
| Args.RebuiltLength | cf.go:146-157 | the rebuilt line is as long as all arguments, plus two quote marks per argument holding a blank, plus one space between neighbours |
| Args.FixupRoundTrip | cf.go:146-157 | for arguments that are non-empty and hold no `"`, `\n` or `\r`, a quote-aware split of the rebuilt line gives back exactly the original arguments |
| Args.EmptyArgumentDropped | cf.go:146-157 | two plain arguments followed by an empty one are rebuilt as the two, each followed by a space, and read back as the two arguments only: the empty argument is lost |
| Text.IndexOf | cf.go:466 | the position of the first occurrence of the delimiter, with none before it, or the length of the input when there is none |
| Console.TrimReturns | cf.go:470 | the result is a prefix of the input, ends in no `\r`, and only `\r` characters were removed |
| Console.ReadLine | cf.go:462-471 | a read succeeds iff the input holds a newline; it then consumes at least one character. A failed read yields "" and consumes everything. The line holds no newline and does not end in `\r` |
| Console.ReadLineSplits | cf.go:466-470 | a successful read splits the input into the line, the carriage returns that were trimmed, the newline and the unread rest |
| Console.ReadLineTyped | cf.go:466-470 | a line without newline or trailing `\r`, typed before the rest, is read back unchanged and leaves exactly the rest |
| Records.Matching | cf.go:426-430 | the list call returns the store's records of the zone whose type and name match, an empty filter matching everything; nothing else; never more than the store holds |
| Records.EmptyNameMatchesAll | cf.go:388-391 | for every store, zone and type: with an empty name filter a record is listed exactly when it is in the zone and of that type (any type for an empty type), whatever its name; a store holding only such records is listed whole, in order |
| Records.Applied | cf.go:441-451 | a taken update keeps the store's length; a taken create keeps the store and appends one record with the new identifier in the zone |
| Records.UpdateById | cf.go:434-441 | an update rewrites the records carrying the update's zone and identifier, and keeps the length and every other record |
| Records.WithoutMembers | cf.go:403 | a delete removes exactly the records with that zone and identifier; every other record stays |
| Records.Without | cf.go:403 | a delete never makes the store longer |
| Records.WithoutUnique | cf.go:403 | a delete keeps record identifiers unique |
| Records.MatchingUnique | cf.go:430 | the records a list returns have unique identifiers when the store does |
| Records.Decide | cf.go:430-452 | no change exactly when the list succeeded, was non-empty, and its first record already holds the content. A failed or empty list gives a create with TTL 1 and proxiable false. Otherwise it is an update of the first record, with that record's type, identifier and TTL and the requested name and content |
| Records.DecideLooksAtFirstOnly | cf.go:431-432 | records listed after the first never change the decision |
| Records.FirstMatchAt | cf.go:432 | the first listed record sits at a store position before which no record matches |
| Records.UpdateRevisesOne | cf.go:434-441 | with unique identifiers, the update of one record leaves every other record untouched |
| Records.UpdateKeepsFirstMatch | cf.go:432-441 | the update turns the first match into itself with the new content (and the requested name, which is its own name unless the name filter was empty); every other record and the store length are unchanged |
| Records.MatchingAppend | cf.go:444-451 | when nothing matched, the created record is then the only match |
| Records.MatchingFrom | cf.go:432 | when position k holds the first matching record, a list returns it first |
| Records.AddOrUpdateIdempotent | cf.go:414-459 | after an accepted add-or-update, a second one with the same content finds nothing to change and makes no mutating call |
| Records.FailedListNotIdempotent | cf.go:430-451 | when the first run's list fails while an "A" record of the name holds other content, the first run creates a second record and a second run with the same content then updates the older one: idempotence needs the first list call to succeed too |
| Records.DeleteCalls | cf.go:402-403 | one delete call per listed record, in list order, for that record's identifier |
| Records.ListedHeld | cf.go:392-403 | every listed record is in the store and in the listed zone, and listed identifiers are unique |
| Records.LaterStillHeld | cf.go:402-409 | deleting one listed record leaves all later listed records in the store |
| Records.HeldRecord | cf.go:403 | a listed record still in the store can be found by zone and identifier |
| Records.Survivors | cf.go:402-409 | the store after the delete loop, one taken delete at a time; it never grows |
| Records.SurvivorsStep | cf.go:402-409 | one more turn of the delete loop: the store loses the current record iff its delete is taken, and the call list gains that one delete |
| Records.SurvivorsExactly | cf.go:402-409 | after the loop, the records left are exactly the store's records that no taken delete named; a refused delete removes nothing and stops nothing |
| Records.ToUpper | cf.go:250 | the type filter keeps its length, each character is upper-cased, and no lower-case ASCII letter remains |
| Records.Widest | cf.go:262-271 | a column's width bounds every entry of that column and is attained by one entry, or is 0 when there are no records |
| Records.ColumnWidths | cf.go:262-271 | the width loop computes exactly the widest type and the widest name |
| Records.PadRight | cf.go:274 | `%-*s`: the text is kept whole and followed by blanks up to the width; a longer text is never cut |
| Records.Row | cf.go:274 | one printed row: the padded type, a space, the padded name, a space and the content (its columns are stated by RowLayout) |
| Records.Spaces | cf.go:274 | padding is n blanks |
| Records.Table | cf.go:273-275 | one printed row per record, in list order |
| Records.RowLayout | cf.go:274 | with widths covering the record, the type starts at column 0, the name at widthType + 1 and the content at widthType + widthName + 2, with blanks between |
| Records.TableAligned | cf.go:273-275 | with the computed widths every row's content starts at the same column |
| Provider.Account.ZoneIDByName | cf.go:540-544 | logs the lookup; gives the zone's identifier unless the name is unknown or the call is refused |
| Provider.Account.ListDNSRecords | cf.go:388-396 | logs the list call; fails if refused, otherwise returns the matching records |
| Provider.Account.ApplyChange | cf.go:441-451 | logs the change; takes it iff not refused and, for an update, its record exists; a create appends a record with a fresh identifier, an update rewrites its record; identifiers stay unique |
| Provider.Account.DeleteDNSRecord | cf.go:403-407 | logs the delete; takes it iff not refused and the record exists, then removes it |
| Cli.Arity | cf.go:215-368 | the argument count each handler checks first: exactly 2 for ip4, ip6, cname, txt and delete, exactly 3 for add, at least 1 for zone, any for help, list and quit |
| Cli.RecordTypeOf | cf.go:280-326 | the record type each convenience command manages: A, AAAA, CNAME, TXT |
| Cli.LookupNote | cf.go:165-175 | a lookup prints a message exactly when it failed (not found, ambiguous, other error); a group, no node or a command prints none |
| Cli.DeleteSession | cf.go:388-403 | the remote calls of cmdDelete once the zone is known: the list call, then one delete per listed record when the list succeeded |
| Cli.DeleteNotes | cf.go:392-409 | what cmdDelete prints once the zone is known: one line for a failed or empty list, otherwise one report per listed record |
| Cli.DeleteReport | cf.go:402-409 | one report per attempted delete, in list order: "deleted" with type and name when taken, an error naming the record otherwise |
| Cli.ReportStep | cf.go:404-408 | one more turn of the loop adds exactly one report, for the current record |
| Cli.Program.constructor | cf.go:121-123 | the program is interactive exactly when it has no arguments; the cache starts empty |
| Cli.Program.ReadString | cf.go:462-471 | the read consumes the terminal input as ReadLine says |
| Cli.Program.ApiFrom | cf.go:485-518 | getAPI as a function of the cache state and the unread input: the cached handle; otherwise CLOUDFLARE_EMAIL then CLOUDFLARE_KEY, each prompted for when unset and interactive, or reported unset otherwise; a client refusing the pair gives an error and no handle |
| Cli.Program.ZoneFrom | cf.go:520-548 | getZoneIdentifier as a function of the cache state and the unread input: the cached zone; otherwise getAPI, and with a handle the zone name, "not set" for an empty one, else one ZoneIDByName call whose answer is the zone or an error |
| Cli.Program.ZoneName | cf.go:529-532 | the zone name is CLOUDFLARE_ZONE when set or when not interactive; otherwise the line read from the terminal |
| Cli.Program.ApiFromFacts | cf.go:485-518 | of ApiFrom: a cached handle is kept with no prompt or output; a handle comes with no output and a failure with exactly one message; input is read only when interactive; non-interactively the first unset of CLOUDFLARE_EMAIL and CLOUDFLARE_KEY is reported |
| Cli.Program.ZoneFromFacts | cf.go:520-548 | of ZoneFrom: a cached zone is kept with no call, prompt or output; without a handle there is no zone and no remote call; at most one call, a zone lookup whose answer is the zone; an empty zone name prints CLOUDFLARE_ZONE not set and makes no call |
| Cli.Program.LoginThenZone | cf.go:415-423 | calling getAPI before getZoneIdentifier changes nothing: a failed getAPI leaves no zone and no call; a successful one leaves getZoneIdentifier the same outcome from the handle it cached |
| Cli.Program.GetAPI | cf.go:485-518 | the returned and cached handle, the printed notes and the unread input are exactly those of ApiFrom from the cache state and input before the call |
| Cli.Program.GetZoneIdentifier | cf.go:520-548 | the zone, the cached handle, the printed notes, the unread input and the remote calls are exactly those of ZoneFrom from the state before the call; without a handle afterwards no remote call was made |
| Cli.Program.LookupZone | cf.go:529-547 | with a handle and no cached zone: the zone name is read as ZoneName says, then ZoneFrom's outcome (no call and "not set" for an empty name, otherwise one lookup) |
| Cli.Program.Connect | cf.go:415-423 | the prologue of the record commands, getAPI then getZoneIdentifier, has exactly ZoneFrom's outcome: no remote call without a handle, at most one zone lookup, nothing printed when it yields a zone |
| Cli.Program.CmdSetZone | cf.go:215-235 | with no argument: usage and no other effect. Otherwise the session handle is set up as `ApiFrom` gives (its notes printed when it fails); with no handle: no remote call. Otherwise one zone lookup of the first argument; on success the zone becomes active and "zone set" is printed, on failure an error and the active zone is kept |
| Cli.Program.CachedZoneListsOnly | cf.go:520-523 | with a zone already cached the list command keeps that zone and its only remote call is the list call: no zone lookup is repeated |
| Cli.Program.CmdList | cf.go:237-278 | the session is set up as `ZoneFrom` gives; the store and the next identifier are unchanged. Without a handle: no remote call. Without a zone: nothing beyond the session's notes and calls. Otherwise the log is exactly the session's calls (none for a cached zone) then one list call filtered by the upper-cased first argument, and either an error or the aligned rows with the widest-type and widest-name widths is printed |
| Cli.Program.ListRows | cf.go:253-275 | one list call with the type filter and an empty name filter; an error if it fails, otherwise one row per record, padded to the widest type and name |
| Cli.Program.AddOrUpdateRecord | cf.go:414-460 | the session is set up as `ZoneFrom` gives. Without a handle: no remote call at all. Without a zone: nothing beyond the session's notes and calls, store and next identifier unchanged. Otherwise the log is exactly the session's calls, one list call, then the change Decide chooses, if any; the store changes only if that change is taken, and the next identifier grows by one only for a taken create; "record updated" is printed unless a submitted change failed |
| Cli.Program.ListAndChange | cf.go:426-459 | once the zone is known: one list call, then exactly the change Decide chooses, if any; the store changes only if that change is taken; "record updated" unless a submitted change failed |
| Cli.Program.CmdRecord | cf.go:280-326 | ip4, ip6, cname and txt: unless exactly 2 arguments, usage and nothing else; otherwise the whole effect of the add-or-update of type A, AAAA, CNAME or TXT (session, exact remote log, store, next identifier and output) |
| Cli.Program.CmdAdd | cf.go:328-362 | unless exactly 3 arguments, usage and nothing else. Otherwise the session is set up as `ZoneFrom` gives; without a handle, no remote call; without a zone, store and next identifier unchanged. Once a zone is known, the log is exactly the session's calls then one create with TTL 1 and proxiable false; "added" or an error is printed; the store gains the record with the next identifier, and that identifier advances, iff the create is taken |
| Cli.Program.CmdDelete | cf.go:364-368 | unless exactly 2 arguments, usage and nothing else; otherwise the whole effect of the delete: session, the exact remote log (the session's calls, the list call, one delete per listed record), the surviving store, an unchanged next identifier and one report per record |
| Cli.Program.DeleteMatching | cf.go:370-411 | the session is set up as `ZoneFrom` gives; the next identifier is unchanged. Without a handle, no remote call; without a zone: only the session's notes and calls. With a zone and an empty type: only the session's calls, and its message. Otherwise the log is exactly the session's calls, the list call and one delete per match in order. A failed list prints an error, an empty one "no match"; else the surviving records and one report per record |
| Cli.Program.DeleteInZone | cf.go:380-411 | once the zone is known: an empty type prints its message and makes no call; otherwise one list call, then one delete per listed record, the surviving store and one report per record; the next identifier is unchanged |
| Cli.Program.ListAndDelete | cf.go:388-411 | the list call, then one delete per listed record; the store and the printed reports follow the listing |
| Cli.Program.DeleteOne | cf.go:403-408 | one delete call for the record; it is removed iff the delete is taken; one report, "deleted" or an error naming the record |
| Cli.Program.DeleteEach | cf.go:402-409 | the delete loop makes exactly the delete calls of the list, in order, carries on after a failure, leaves exactly the survivors and prints one report per record |
| Cli.Program.CmdHelp | cf.go:192-213 | prints exactly the help notes: with no argument, help for the tree; otherwise the first argument's lookup error, or the help of the command it names, or nothing for a group; nothing else changes |
| Cli.Program.HelpNotes | cf.go:192-213 | with no argument, the tree's help only; otherwise at most one note, and none exactly when its lookup finds a group, or no node and no error |
| Cli.Program.Dispatch | cf.go:181-190 | only quit asks to stop. For every command and arguments, the effect is the dispatch table's: usage and nothing else for a wrong argument count, otherwise that command's handler's whole effect (quit changes nothing) |
| Cli.Program.DispatchReading | cf.go:182-183 | help, list and zone: the dispatch table's effect (usage on a wrong count, else the handler's whole effect) |
| Cli.Program.DispatchChange | cf.go:182-183 | ip4, ip6, cname, txt, add and delete: the dispatch table's effect (usage on a wrong count, else the handler's whole effect) |
| Cli.Program.ProcessCmd | cf.go:159-186 | an empty line does nothing. A failed lookup prints its message and nothing else. A group or empty selection does nothing. A line naming a command has that command's dispatch-table effect on the arguments the lookup gives. The result asks to stop exactly when the line names quit |
| Cli.Program.RunInteractive | cf.go:132-144 | the loop ends only when the input has no complete line left (the read fails) or when a line ran quit |
| Cli.Program.Run | cf.go:121-130 | non-interactively the terminal is not read, and the rebuilt line has the effect `ProcessCmd` states: nothing when empty or naming a group or no node, the lookup message when it fails, otherwise the dispatch-table effect of the command it names. Interactively, as `RunInteractive`: it stops only when the input is used up or a line ran quit |

## Left out

- The Cloudflare client is an oracle (`Account.refuses`, `Cli.clientRejects`): the HTTP calls, pagination, contexts and error texts. A refusal depends only on the call, so the same call is refused every time.
- The command-tree library (`cmds.Lookup`, `DisplayHelp`, `DisplayUsage`) is not part of this model. Lookup is a pure function from the typed line to a result, given with the program. Help and usage appear only as notes.
- The split used by `Args.FixupRoundTrip` is a reference definition of the documented quote-aware tokenising (separators collapse, a quoted stretch is one token), not the library's code.
- The command registration in `init` (cf.go:30-119) is static data. The `Cmd` datatype names the commands; shortcuts and descriptions live in the lookup function.
- The printed text and its formatting are left out. Output is a sequence of `Note`s, apart from the list rows, whose padding is modelled.
- `readHiddenString` is modelled like `readString`: one line off the same input. Terminal echo and `term.ReadPassword`'s own line handling are left out.
- Each `readString` call makes a new `bufio.Reader`, which may buffer input past the line it returns. The model consumes exactly one line per read.
- `os.Getenv` is a map; an unset variable reads as "".
- `Records.Widest`, `Records.PadRight`: lengths count characters, where Go's `len` counts UTF-8 bytes; the two agree for ASCII names and types.
- `Records.ToUpper`: upper-cases ASCII letters only, where `strings.ToUpper` covers all of Unicode.
- `Cli.Program.RunInteractive`: states why the loop stops, not the sequence of lines it processed.
- `Cli.Program.Run`: in the interactive mode it states only the stopping condition of `Cli.Program.RunInteractive` (through its ghost result `quitLine`), not the lines processed.
- `Records.AddOrUpdateIdempotent` is stated only when both runs' list calls succeed. After a failed list call, `cf.go` creates a record whatever the store holds; `Records.FailedListNotIdempotent` shows a failed first list breaking idempotence.
