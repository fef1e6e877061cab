/**
 * The cf command-line program: the session cache, the command handlers,
 * the dispatcher and the interactive loop of cf.go.
 *
 * What cf.go takes from outside is given to the Program object when it is made:
 * the process arguments and environment, the unread terminal input, the
 * command tree's lookup (a pure function of the typed line, as the tree is
 * built once and never changed), whether the Cloudflare client refuses a
 * pair of credentials, and the remote account. What it prints is recorded
 * as a list of notes.
 */
module Cli {
  import opened Wrappers
  import opened Records
  import opened Provider
  import Console
  import Args

  /** The commands registered in the command tree. */
  datatype Cmd = Help | List | IP4 | IP6 | CName | Txt | Add | Delete | Zone | Quit

  /** What the command tree's Lookup answers for a line. */
  datatype LookupResult =
    | NotFound
    | Ambiguous
    | LookupError(message: string)
    | NoNode                             // no error and no node
    | GroupNode                          // the line named a subtree, not a command
    | Leaf(cmd: Cmd, args: seq<string>)  // a command and its arguments

  /** An authenticated API handle. */
  datatype Handle = Handle(email: string, key: string)

  /** What cf.go prints, without its wording. */
  datatype Note =
    | CommandNotFound
    | CommandAmbiguous
    | LookupFailed(message: string)
    | Usage(cmd: Cmd)
    | GroupHelp
    | CommandHelp(cmd: Cmd)
    | NotSet(variable: string)
    | Failed                         // "Error: ..." from the client or the remote
    | ZoneSet(zoneName: string)
    | Rows(lines: seq<string>)
    | RecordAdded
    | RecordUpdated
    | InvalidType
    | NoMatch
    | RecordDeleted(rtype: string, name: string)
    | DeleteFailed(name: string)

  /** What a call of getAPI comes to: the handle, what it printed and the input it left unread. */
  datatype ApiOutcome = ApiOutcome(api: Option<Handle>, notes: seq<Note>, rest: string)

  /**
   * What a call of getZoneIdentifier comes to: the zone, the handle cached
   * afterwards, what it printed, the input it left unread and the remote
   * calls it made.
   */
  datatype ZoneOutcome =
    ZoneOutcome(zone: Option<ZoneId>, api: Option<Handle>, notes: seq<Note>, rest: string, calls: seq<Call>)

  const EmailVar: string := "CLOUDFLARE_EMAIL"
  const KeyVar: string := "CLOUDFLARE_KEY"
  const ZoneVar: string := "CLOUDFLARE_ZONE"

  /** How many arguments a handler takes before it does anything else. */
  datatype ArityRule = Exactly(n: nat) | AtLeast(n: nat) | AnyCount

  function Arity(c: Cmd): ArityRule {
    match c
    case IP4 | IP6 | CName | Txt | Delete => Exactly(2)
    case Add => Exactly(3)
    case Zone => AtLeast(1)
    case Help | List | Quit => AnyCount
  }

  predicate Admits(rule: ArityRule, count: nat) {
    match rule
    case Exactly(n) => count == n
    case AtLeast(n) => count >= n
    case AnyCount => true
  }

  /** The record type each convenience command manages. */
  function RecordTypeOf(c: Cmd): string
    requires c.IP4? || c.IP6? || c.CName? || c.Txt?
  {
    match c
    case IP4 => "A"
    case IP6 => "AAAA"
    case CName => "CNAME"
    case Txt => "TXT"
  }

  /** The message a failed lookup prints, if the lookup failed. */
  function LookupNote(r: LookupResult): (n: Option<Note>)
    ensures n.None? <==> r.NoNode? || r.GroupNode? || r.Leaf?
  {
    match r
    case NotFound => Some(CommandNotFound)
    case Ambiguous => Some(CommandAmbiguous)
    case LookupError(m) => Some(LookupFailed(m))
    case _ => None
  }

  /** One report per attempted delete, in list order. */
  function DeleteReport(zone: ZoneId, recs: seq<Record>, refuses: Call -> bool): (notes: seq<Note>)
    ensures |notes| == |recs|
    ensures forall i :: 0 <= i < |recs| ==>
      notes[i] == if DeleteTaken(zone, recs[i], refuses) then RecordDeleted(recs[i].rtype, recs[i].name)
                  else DeleteFailed(recs[i].name)
  {
    seq(|recs|, i requires 0 <= i < |recs| =>
      if DeleteTaken(zone, recs[i], refuses) then RecordDeleted(recs[i].rtype, recs[i].name)
      else DeleteFailed(recs[i].name))
  }

  lemma ReportStep(zone: ZoneId, recs: seq<Record>, i: nat, refuses: Call -> bool)
    requires i < |recs|
    ensures DeleteReport(zone, recs[..i + 1], refuses) == DeleteReport(zone, recs[..i], refuses) +
      [if DeleteTaken(zone, recs[i], refuses) then RecordDeleted(recs[i].rtype, recs[i].name)
       else DeleteFailed(recs[i].name)]
  {
  }

  /** The remote calls of cmdDelete once the zone is known: the list, then a delete per match. */
  function DeleteSession(zone: ZoneId, rtype: string, name: string, l: Listing): seq<Call> {
    [ListRecords(zone, rtype, name)] + (if l.Listed? then DeleteCalls(zone, l.recs) else [])
  }

  /** What cmdDelete prints once the zone is known and the list call has answered. */
  function DeleteNotes(zone: ZoneId, l: Listing, refuses: Call -> bool): (notes: seq<Note>)
    ensures |notes| == if l.Listed? && l.recs != [] then |l.recs| else 1
  {
    if l.ListFailed? then [Failed]
    else if l.recs == [] then [NoMatch]
    else DeleteReport(zone, l.recs, refuses)
  }

  /** Regrouping a concatenation of three sequences. */
  lemma Regroup<T>(a: seq<T>, b: seq<T>, c: seq<T>)
    ensures a + b + c == a + (b + c)
  {
  }

  class Program {
    const interactive: bool
    const osArgs: seq<string>
    const env: map<string, string>
    const lookup: string -> LookupResult
    /** Whether the Cloudflare client refuses (key, email). */
    const clientRejects: (string, string) -> bool
    const remote: Account

    /** Terminal input not read yet. */
    var stdin: string
    var activeAPI: Option<Handle>
    var activeZone: Option<ZoneId>
    /** What has been printed. */
    var out: seq<Note>

    ghost predicate Valid()
      reads this, remote
    {
      remote.Valid() && (activeZone.Some? ==> activeAPI.Some?)
    }

    /** Only the notes in extra were printed; nothing else changed. */
    twostate predicate Quiet(extra: seq<Note>)
      reads this, remote
    {
      && out == old(out) + extra
      && stdin == old(stdin)
      && activeAPI == old(activeAPI) && activeZone == old(activeZone)
      && remote.log == old(remote.log) && remote.records == old(remote.records)
      && remote.nextId == old(remote.nextId)
    }

    /** What cmdHelp prints for its arguments. */
    function HelpNotes(args: seq<string>): (notes: seq<Note>)
      ensures args == [] ==> notes == [GroupHelp]
      ensures args != [] ==>
        |notes| <= 1 && (notes == [] <==> lookup(args[0]).NoNode? || lookup(args[0]).GroupNode?)
    {
      if args == [] then [GroupHelp]
      else
        var r := lookup(args[0]);
        if LookupNote(r).Some? then [LookupNote(r).value]
        else if r.Leaf? then [CommandHelp(r.cmd)]
        else []
    }

    /**
     * The session part of a command that needs a zone: the handle, zone and
     * unread input getZoneIdentifier leaves, as ZoneFrom says; when it
     * yields no zone, its notes and calls are all that happened.
     */
    twostate predicate ZoneSession()
      reads this, remote
    {
      var o := ZoneFrom(old(activeZone), old(activeAPI), old(stdin));
      && activeZone == o.zone && activeAPI == o.api && stdin == o.rest
      && (o.zone.None? ==> out == old(out) + o.notes && remote.log == old(remote.log) + o.calls)
    }

    /** The remote calls getZoneIdentifier makes at the start of a command. */
    twostate function SessionCalls(): seq<Call>
      reads this, remote
    {
      ZoneFrom(old(activeZone), old(activeAPI), old(stdin)).calls
    }

    /**
     * The session part of cmdSetZone: the handle and unread input getAPI
     * leaves, as ApiFrom says; when it yields no handle, its notes are all
     * that happened.
     */
    twostate predicate ApiSession()
      reads this, remote
    {
      var o := ApiFrom(old(activeAPI), old(stdin));
      && activeAPI == o.api && stdin == o.rest
      && (o.api.None? ==> out == old(out) + o.notes && activeZone == old(activeZone))
    }

    /**
     * The effect of cmdListDomains: no record changes; no remote call
     * without a handle; without a zone only the session's own calls;
     * with one, those calls and then one list call filtered by the upper-cased first argument
     * and its rows at the widest widths, or an error.
     */
    twostate predicate ListShown(args: seq<string>)
      reads this, remote
    {
      && ZoneSession()
      && remote.records == old(remote.records) && remote.nextId == old(remote.nextId)
      && (activeAPI.None? ==> remote.log == old(remote.log))
      && (activeZone.Some? ==>
            var zone := activeZone.value;
            var filter := if |args| > 0 then ToUpper(args[0]) else "";
            var l := old(remote.ListAnswer(zone, filter, ""));
            && remote.log == old(remote.log) + SessionCalls() + [ListRecords(zone, filter, "")]
            && out == old(out) + [if l.ListFailed? then Failed
                                  else Rows(Table(l.recs, Widest(l.recs, TypeColumn), Widest(l.recs, NameColumn)))])
    }

    /**
     * With a zone already cached, getZoneIdentifier makes no call, so the
     * list command's only remote call is the list itself.
     */
    twostate lemma CachedZoneListsOnly(args: seq<string>)
      requires old(activeZone).Some? && ListShown(args)
      ensures activeZone == old(activeZone)
      ensures remote.log == old(remote.log) +
        [ListRecords(activeZone.value, if |args| > 0 then ToUpper(args[0]) else "", "")]
    {
      ZoneFromFacts(old(activeZone), old(activeAPI), old(stdin));
    }

    /**
     * The effect of cmdSetZone on a zone name: no record changes; no call
     * without a handle; with one, one lookup of the name, which on success
     * becomes the active zone.
     */
    twostate predicate ZoneChosen(zoneName: string)
      reads this, remote
    {
      && ApiSession()
      && remote.records == old(remote.records) && remote.nextId == old(remote.nextId)
      && (activeAPI.None? ==> remote.log == old(remote.log))
      && (activeAPI.Some? ==>
            var found := !remote.refuses(ZoneIdByName(zoneName)) && zoneName in remote.zoneIds;
            && remote.log == old(remote.log) + [ZoneIdByName(zoneName)]
            && activeZone == (if found then Some(remote.zoneIds[zoneName]) else old(activeZone))
            && out == old(out) + [if found then ZoneSet(zoneName) else Failed])
    }

    /**
     * The effect of addOrUpdateRecord: no call without a handle; without a
     * zone, only the session's own calls; with one, those calls, one list
     * call and exactly the change Decide chooses, the store (and the next
     * identifier, for a create) changed iff it is taken.
     */
    twostate predicate RecordPut(rtype: string, name: string, content: string)
      reads this, remote
    {
      && ZoneSession()
      && (activeAPI.None? ==> remote.log == old(remote.log) && remote.records == old(remote.records))
      && (activeZone.None? ==> remote.records == old(remote.records) && remote.nextId == old(remote.nextId))
      && (activeZone.Some? ==>
            var zone := activeZone.value;
            var d := Decide(old(remote.ListAnswer(zone, rtype, name)), zone, rtype, name, content);
            var taken := d.Some? && old(remote.Accepts(d.value));
            && remote.log == old(remote.log) + SessionCalls() + [ListRecords(zone, rtype, name)] +
                 (if d.Some? then [Submit(d.value)] else [])
            && remote.records == (if taken then Applied(old(remote.records), d.value, old(remote.nextId))
                                  else old(remote.records))
            && remote.nextId == (if taken && d.value.Create? then old(remote.nextId) + 1 else old(remote.nextId))
            && out == old(out) + [if d.None? || taken then RecordUpdated else Failed])
    }

    /**
     * The effect of cmdAdd on its three arguments: no call without a
     * handle; without a zone, only the session's own calls; with one, those
     * calls and exactly one create with TTL 1 and proxiable false.
     */
    twostate predicate RecordCreated(rtype: string, name: string, content: string)
      reads this, remote
    {
      && ZoneSession()
      && (activeAPI.None? ==> remote.log == old(remote.log) && remote.records == old(remote.records))
      && (activeZone.None? ==> remote.records == old(remote.records) && remote.nextId == old(remote.nextId))
      && (activeZone.Some? ==>
            var c := Create(activeZone.value, rtype, name, content, AutoTTL, false);
            var taken := old(remote.Accepts(c));
            && remote.log == old(remote.log) + SessionCalls() + [Submit(c)]
            && remote.nextId == (if taken then old(remote.nextId) + 1 else old(remote.nextId))
            && remote.records == (if taken then old(remote.records) + [Record(old(remote.nextId), activeZone.value,
                                    rtype, name, content, AutoTTL, false)] else old(remote.records))
            && out == old(out) + [if taken then RecordAdded else Failed])
    }

    /**
     * The effect of cmdDelete on its two arguments: no call without a
     * handle; no list or delete without a zone or with an empty type;
     * otherwise the list call and one delete per listed record, leaving
     * the survivors and one report per record.
     */
    twostate predicate RecordsDeleted(recType: string, name: string)
      reads this, remote
    {
      && ZoneSession()
      && (activeAPI.None? ==> remote.log == old(remote.log) && remote.records == old(remote.records))
      && remote.nextId == old(remote.nextId)
      && (activeZone.None? || recType == "" ==> remote.records == old(remote.records))
      && (activeZone.Some? && recType == "" ==>
            remote.log == old(remote.log) + SessionCalls() && out == old(out) + [InvalidType])
      && (activeZone.Some? && recType != "" ==>
            var zone := activeZone.value;
            var l := old(remote.ListAnswer(zone, recType, name));
            && remote.log == old(remote.log) + SessionCalls() + DeleteSession(zone, recType, name, l)
            && remote.records == (if l.Listed? then Survivors(old(remote.records), zone, l.recs, remote.refuses)
                                  else old(remote.records))
            && out == old(out) + DeleteNotes(zone, l, remote.refuses))
    }

    /**
     * What running the handler of c on args does: usage alone when the
     * argument count is refused, otherwise that command's own effect.
     */
    twostate predicate Handled(c: Cmd, args: seq<string>)
      reads this, remote
    {
      if !Admits(Arity(c), |args|) then Quiet([Usage(c)])
      else
        match c
        case Quit => Quiet([])
        case Help => Quiet(HelpNotes(args))
        case List => ListShown(args)
        case Zone => ZoneChosen(args[0])
        case IP4 | IP6 | CName | Txt => RecordPut(RecordTypeOf(c), args[0], args[1])
        case Add => RecordCreated(args[0], args[1], args[2])
        case Delete => RecordsDeleted(args[0], args[1])
    }

    /** The program is interactive exactly when it was given no arguments. */
    constructor (args: seq<string>, env0: map<string, string>, input: string,
                 lookup0: string -> LookupResult, clientRejects0: (string, string) -> bool,
                 remote0: Account)
      requires remote0.Valid()
      ensures Valid()
      ensures interactive == (|args| == 0) && osArgs == args
      ensures env == env0 && stdin == input && lookup == lookup0
      ensures clientRejects == clientRejects0 && remote == remote0
      ensures activeAPI.None? && activeZone.None? && out == []
    {
      interactive := |args| == 0;
      osArgs, env, stdin, lookup := args, env0, input, lookup0;
      clientRejects, remote := clientRejects0, remote0;
      activeAPI, activeZone, out := None, None, [];
    }

    /** os.Getenv: an unset variable reads as "". */
    function Getenv(name: string): string
    {
      if name in env then env[name] else ""
    }

    /** A value taken from the environment, or else from a prompt. */
    function Answer(envValue: string, input: string): (string, string)
    {
      if envValue != "" then (envValue, input)
      else
        var r := Console.ReadLine(input);
        (r.line, r.rest)
    }

    /**
     * getAPI from the cache state cached with input unread: the cached
     * handle, or a new one from CLOUDFLARE_EMAIL and CLOUDFLARE_KEY. A
     * missing variable is prompted for when interactive, and otherwise
     * reported, and ends the attempt.
     */
    function ApiFrom(cached: Option<Handle>, input: string): ApiOutcome
    {
      if cached.Some? then ApiOutcome(cached, [], input)
      else if !interactive then
        var email, key := Getenv(EmailVar), Getenv(KeyVar);
        if email == "" then ApiOutcome(None, [NotSet(EmailVar)], input)
        else if key == "" then ApiOutcome(None, [NotSet(KeyVar)], input)
        else if clientRejects(key, email) then ApiOutcome(None, [Failed], input)
        else ApiOutcome(Some(Handle(email, key)), [], input)
      else
        var (email, rest) := Answer(Getenv(EmailVar), input);
        var (key, rest') := Answer(Getenv(KeyVar), rest);
        if clientRejects(key, email) then ApiOutcome(None, [Failed], rest')
        else ApiOutcome(Some(Handle(email, key)), [], rest')
    }

    /**
     * The zone name getZoneIdentifier looks up: CLOUDFLARE_ZONE, or else a
     * prompted line when interactive; with the input left unread.
     */
    function ZoneName(input: string): (r: (string, string))
      ensures Getenv(ZoneVar) != "" ==> r == (Getenv(ZoneVar), input)
      ensures !interactive ==> r == (Getenv(ZoneVar), input)
      ensures interactive && Getenv(ZoneVar) == "" ==> r == (Console.ReadLine(input).line, Console.ReadLine(input).rest)
    {
      if interactive then Answer(Getenv(ZoneVar), input) else (Getenv(ZoneVar), input)
    }

    /**
     * getZoneIdentifier from the cached zone and handle with input unread:
     * the cached zone, or getAPI followed, when it gave a handle, by one
     * ZoneIDByName call for the zone name, unless that name is empty.
     */
    function ZoneFrom(cachedZone: Option<ZoneId>, cachedApi: Option<Handle>, input: string): ZoneOutcome
    {
      if cachedZone.Some? then ZoneOutcome(cachedZone, cachedApi, [], input, [])
      else
        var a := ApiFrom(cachedApi, input);
        if a.api.None? then ZoneOutcome(None, None, a.notes, a.rest, [])
        else
          var (name, rest) := ZoneName(a.rest);
          if name == "" then ZoneOutcome(None, a.api, a.notes + [NotSet(ZoneVar)], rest, [])
          else
            var found := !remote.refuses(ZoneIdByName(name)) && name in remote.zoneIds;
            ZoneOutcome(if found then Some(remote.zoneIds[name]) else None, a.api,
                        a.notes + (if found then [] else [Failed]), rest, [ZoneIdByName(name)])
    }

    /**
     * getAPI keeps a cached handle, prints nothing when it yields a handle
     * and one message when it does not, reads input only when interactive,
     * and reports the first missing variable when not interactive.
     */
    lemma ApiFromFacts(cached: Option<Handle>, input: string)
      ensures var o := ApiFrom(cached, input);
        && (cached.Some? ==> o == ApiOutcome(cached, [], input))
        && (o.api.Some? ==> o.notes == [])
        && (o.api.None? ==> |o.notes| == 1)
        && |o.rest| <= |input| && (!interactive ==> o.rest == input)
        && (cached.None? && !interactive && (Getenv(EmailVar) == "" || Getenv(KeyVar) == "") ==>
              o.api.None? && o.notes == [NotSet(if Getenv(EmailVar) == "" then EmailVar else KeyVar)])
    {
    }

    /**
     * getZoneIdentifier keeps a cached zone; without a handle it makes no
     * remote call and yields no zone; it makes at most one call, a zone
     * lookup whose answer is the zone; an empty zone name is reported and
     * makes no call.
     */
    lemma ZoneFromFacts(cachedZone: Option<ZoneId>, cachedApi: Option<Handle>, input: string)
      ensures var o := ZoneFrom(cachedZone, cachedApi, input);
        && (cachedZone.Some? ==> o == ZoneOutcome(cachedZone, cachedApi, [], input, []))
        && (o.api.None? ==> o.calls == [] && (cachedZone.None? ==> o.zone.None?))
        && (cachedZone.None? ==> o.api == ApiFrom(cachedApi, input).api)
        && |o.calls| <= 1 && (forall i :: 0 <= i < |o.calls| ==> o.calls[i].ZoneIdByName?)
        && (o.zone.Some? ==> o.notes == [])
        && (cachedZone.None? && o.zone.Some? ==>
              |o.calls| == 1 && o.calls[0].zoneName in remote.zoneIds &&
              o.zone == Some(remote.zoneIds[o.calls[0].zoneName]))
        && (cachedZone.None? && o.api.Some? && ZoneName(ApiFrom(cachedApi, input).rest).0 == "" ==>
              o.zone.None? && o.calls == [] && o.notes == ApiFrom(cachedApi, input).notes + [NotSet(ZoneVar)])
        && |o.rest| <= |input| && (!interactive ==> o.rest == input)
    {
      ApiFromFacts(cachedApi, input);
    }

    /**
     * Calling getAPI before getZoneIdentifier changes nothing, as
     * getZoneIdentifier starts with getAPI and getAPI keeps the handle it
     * made: a failed getAPI leaves no zone to find, and a successful one
     * leaves getZoneIdentifier to do the same from the handle it cached.
     */
    lemma LoginThenZone(cachedZone: Option<ZoneId>, cachedApi: Option<Handle>, input: string)
      requires cachedZone.Some? ==> cachedApi.Some?
      ensures var a := ApiFrom(cachedApi, input);
        && (a.api.None? ==> ZoneFrom(cachedZone, cachedApi, input) == ZoneOutcome(None, None, a.notes, a.rest, []))
        && (a.api.Some? ==> ZoneFrom(cachedZone, cachedApi, input) == ZoneFrom(cachedZone, a.api, a.rest))
    {
    }

    /** readString and readHiddenString: one line from the terminal. */
    method ReadString() returns (line: string, ok: bool)
      modifies this`stdin
      ensures Console.ReadLine(old(stdin)) == Console.Read(ok, line, stdin)
    {
      var r := Console.ReadLine(stdin);
      line, ok, stdin := r.line, r.ok, r.rest;
    }

    /**
     * getAPI: the cached handle, or a new one from CLOUDFLARE_EMAIL and
     * CLOUDFLARE_KEY, prompting for a missing one only when interactive.
     */
    method GetAPI() returns (api: Option<Handle>)
      requires Valid()
      modifies this`stdin, this`activeAPI, this`out
      ensures Valid()
      ensures api == activeAPI
      ensures var o := ApiFrom(old(activeAPI), old(stdin));
        api == o.api && out == old(out) + o.notes && stdin == o.rest
    {
      if activeAPI.Some? {
        return activeAPI;
      }
      var email := Getenv(EmailVar);
      if email == "" {
        if interactive {
          var readOk;
          email, readOk := ReadString();
        } else {
          out := out + [NotSet(EmailVar)];
          return None;
        }
      }
      var key := Getenv(KeyVar);
      if key == "" {
        if interactive {
          var readOk;
          key, readOk := ReadString();
        } else {
          out := out + [NotSet(KeyVar)];
          return None;
        }
      }
      if clientRejects(key, email) {
        activeAPI := None;
        out := out + [Failed];
        return None;
      }
      activeAPI := Some(Handle(email, key));
      api := activeAPI;
    }

    /**
     * getZoneIdentifier: the cached zone, or the zone named by
     * CLOUDFLARE_ZONE (or a prompt, when interactive) looked up remotely.
     */
    method GetZoneIdentifier() returns (zone: Option<ZoneId>)
      requires Valid()
      modifies this`stdin, this`activeAPI, this`activeZone, this`out, remote`log
      ensures Valid()
      ensures zone == activeZone
      ensures var o := ZoneFrom(old(activeZone), old(activeAPI), old(stdin));
        && zone == o.zone && activeAPI == o.api && out == old(out) + o.notes
        && stdin == o.rest && remote.log == old(remote.log) + o.calls
      ensures |stdin| <= old(|stdin|) && (!interactive ==> stdin == old(stdin))
      ensures zone.Some? ==> out == old(out)
      ensures activeAPI.None? ==> remote.log == old(remote.log)
    {
      if activeZone.Some? {
        return activeZone;
      }
      LoginThenZone(activeZone, activeAPI, stdin);
      ApiFromFacts(activeAPI, stdin);
      var api := GetAPI();
      if api.None? {
        return None;
      }
      zone := LookupZone();
    }

    /** The second half of getZoneIdentifier: find the zone name and look it up. */
    method LookupZone() returns (zone: Option<ZoneId>)
      requires activeZone.None? && activeAPI.Some?
      modifies this`stdin, this`activeZone, this`out, remote`log
      ensures zone == activeZone
      ensures var o := ZoneFrom(None, activeAPI, old(stdin));
        && zone == o.zone && out == old(out) + o.notes
        && stdin == o.rest && remote.log == old(remote.log) + o.calls
    {
      var zoneName := Getenv(ZoneVar);
      if zoneName == "" && interactive {
        var readOk;
        zoneName, readOk := ReadString();
      }
      if zoneName == "" {
        out := out + [NotSet(ZoneVar)];
        return None;
      }
      var id := remote.ZoneIDByName(zoneName);
      if id.None? {
        out := out + [Failed];
        return None;
      }
      activeZone := id;
      zone := activeZone;
    }

    /**
     * The prologue of addOrUpdateRecord, cmdAdd and cmdDelete: getAPI, then
     * getZoneIdentifier, giving up as soon as one of them has nothing.
     */
    method Connect() returns (zone: Option<ZoneId>)
      requires Valid()
      modifies this`stdin, this`activeAPI, this`activeZone, this`out, remote`log
      ensures Valid()
      ensures zone == activeZone
      ensures var o := ZoneFrom(old(activeZone), old(activeAPI), old(stdin));
        && zone == o.zone && activeAPI == o.api && out == old(out) + o.notes
        && stdin == o.rest && remote.log == old(remote.log) + o.calls
      ensures |stdin| <= old(|stdin|) && (!interactive ==> stdin == old(stdin))
      ensures zone.Some? ==> out == old(out)
      ensures activeAPI.None? ==> remote.log == old(remote.log)
    {
      LoginThenZone(activeZone, activeAPI, stdin);
      ApiFromFacts(activeAPI, stdin);
      var api := GetAPI();
      if api.None? {
        return None;
      }
      zone := GetZoneIdentifier();
    }

    /** cmdSetZone: look up the named zone and make it the active one. */
    method CmdSetZone(args: seq<string>)
      requires Valid()
      modifies this, remote
      ensures Valid()
      ensures |stdin| <= old(|stdin|) && (!interactive ==> stdin == old(stdin))
      ensures Handled(Zone, args)
    {
      if |args| < 1 {
        out := out + [Usage(Zone)];
        return;
      }
      var api := GetAPI();
      if api.None? {
        return;
      }
      var id := remote.ZoneIDByName(args[0]);
      if id.None? {
        out := out + [Failed];
        return;
      }
      activeZone := id;
      out := out + [ZoneSet(args[0])];
    }

    /** cmdListDomains: print the zone's records (of one type, if given) in aligned columns. */
    method CmdList(args: seq<string>)
      requires Valid()
      modifies this, remote
      ensures Valid()
      ensures |stdin| <= old(|stdin|) && (!interactive ==> stdin == old(stdin))
      ensures ListShown(args)
    {
      var zone := GetZoneIdentifier();
      if zone.None? {
        return;
      }
      ApiFromFacts(activeAPI, stdin);
      var api := GetAPI();
      if api.None? {
        return;
      }
      var recType := "";
      if |args| > 0 {
        recType := ToUpper(args[0]);
      }
      ListRows(zone.value, recType);
    }

    /** cmdListDomains once the zone is known: one list call, then the rows or the error. */
    method ListRows(zone: ZoneId, recType: string)
      modifies this`out, remote`log
      ensures remote.log == old(remote.log) + [ListRecords(zone, recType, "")]
      ensures var l := remote.ListAnswer(zone, recType, "");
        out == old(out) + [if l.ListFailed? then Failed
                           else Rows(Table(l.recs, Widest(l.recs, TypeColumn), Widest(l.recs, NameColumn)))]
    {
      var l := remote.ListDNSRecords(zone, recType, "");
      if l.ListFailed? {
        out := out + [Failed];
        return;
      }
      var widthType, widthName := ColumnWidths(l.recs);
      out := out + [Rows(Table(l.recs, widthType, widthName))];
    }

    /**
     * addOrUpdateRecord: list the records of this type and name; update the
     * first one if its content differs, create a record if there is none
     * or the list failed, and do nothing remote otherwise.
     */
    method AddOrUpdateRecord(rtype: string, name: string, content: string)
      requires Valid()
      modifies this, remote
      ensures Valid()
      ensures |stdin| <= old(|stdin|) && (!interactive ==> stdin == old(stdin))
      ensures RecordPut(rtype, name, content)
    {
      var zone := Connect();
      if zone.None? {
        return;
      }
      ListAndChange(zone.value, rtype, name, content);
    }

    /** addOrUpdateRecord once the zone is known: the list call, then the change Decide chooses. */
    method ListAndChange(zone: ZoneId, rtype: string, name: string, content: string)
      requires remote.Valid()
      modifies this`out, remote
      ensures remote.Valid()
      ensures var d := Decide(old(remote.ListAnswer(zone, rtype, name)), zone, rtype, name, content);
        var taken := d.Some? && old(remote.Accepts(d.value));
        && remote.log == old(remote.log) + [ListRecords(zone, rtype, name)] +
             (if d.Some? then [Submit(d.value)] else [])
        && remote.records == (if taken then Applied(old(remote.records), d.value, old(remote.nextId))
                              else old(remote.records))
        && remote.nextId == (if taken && d.value.Create? then old(remote.nextId) + 1 else old(remote.nextId))
        && out == old(out) + [if d.None? || taken then RecordUpdated else Failed]
    {
      var l := remote.ListDNSRecords(zone, rtype, name);
      var d := Decide(l, zone, rtype, name, content);
      var ok := true;
      if d.Some? {
        ok := remote.ApplyChange(d.value);
      }
      out := out + [if ok then RecordUpdated else Failed];
    }

    /** cmdIP4, cmdIP6, cmdCNAME and cmdTXT: add or update one record of their type. */
    method CmdRecord(c: Cmd, args: seq<string>)
      requires Valid()
      requires c.IP4? || c.IP6? || c.CName? || c.Txt?
      modifies this, remote
      ensures Valid()
      ensures |stdin| <= old(|stdin|) && (!interactive ==> stdin == old(stdin))
      ensures Handled(c, args)
    {
      if |args| != 2 {
        out := out + [Usage(c)];
        return;
      }
      AddOrUpdateRecord(RecordTypeOf(c), args[0], args[1]);
    }

    /** cmdAdd: always create a record, with the automatic TTL. */
    method CmdAdd(args: seq<string>)
      requires Valid()
      modifies this, remote
      ensures Valid()
      ensures |stdin| <= old(|stdin|) && (!interactive ==> stdin == old(stdin))
      ensures Handled(Add, args)
    {
      if |args| != 3 {
        out := out + [Usage(Add)];
        return;
      }
      var zone := Connect();
      if zone.None? {
        return;
      }
      var c := Create(zone.value, args[0], args[1], args[2], AutoTTL, false);
      var ok := remote.ApplyChange(c);
      out := out + [if ok then RecordAdded else Failed];
    }

    /**
     * cmdDelete: list the records of this type and name and try to delete
     * each one, reporting each failure and carrying on.
     */
    method CmdDelete(args: seq<string>)
      requires Valid()
      modifies this, remote
      ensures Valid()
      ensures |stdin| <= old(|stdin|) && (!interactive ==> stdin == old(stdin))
      ensures Handled(Delete, args)
    {
      if |args| != 2 {
        out := out + [Usage(Delete)];
        return;
      }
      DeleteMatching(args[0], args[1]);
    }

    /** The body of cmdDelete once its two arguments are there. */
    method DeleteMatching(recType: string, name: string)
      requires Valid()
      modifies this, remote
      ensures Valid()
      ensures |stdin| <= old(|stdin|) && (!interactive ==> stdin == old(stdin))
      ensures RecordsDeleted(recType, name)
    {
      var zone := Connect();
      if zone.None? {
        return;
      }
      DeleteInZone(zone.value, recType, name);
    }

    /** cmdDelete once the zone is known: refuse an empty type, else list and delete. */
    method DeleteInZone(zone: ZoneId, recType: string, name: string)
      requires remote.Valid()
      modifies this`out, remote
      ensures remote.Valid() && remote.nextId == old(remote.nextId)
      ensures recType == "" ==>
        remote.log == old(remote.log) && remote.records == old(remote.records) && out == old(out) + [InvalidType]
      ensures recType != "" ==>
        var l := old(remote.ListAnswer(zone, recType, name));
        && remote.log == old(remote.log) + DeleteSession(zone, recType, name, l)
        && remote.records == (if l.Listed? then Survivors(old(remote.records), zone, l.recs, remote.refuses)
                              else old(remote.records))
        && out == old(out) + DeleteNotes(zone, l, remote.refuses)
    {
      if |recType| < 1 {
        out := out + [InvalidType];
        return;
      }
      ghost var l := remote.ListAnswer(zone, recType, name);
      ListAndDelete(zone, recType, name);
      Regroup(old(remote.log), [ListRecords(zone, recType, name)], if l.Listed? then DeleteCalls(zone, l.recs) else []);
    }

    /** cmdDelete once the zone is known: list the matches, then delete each one. */
    method ListAndDelete(zone: ZoneId, recType: string, name: string)
      requires remote.Valid()
      modifies this`out, remote
      ensures remote.Valid()
      ensures var l := old(remote.ListAnswer(zone, recType, name));
        remote.log == old(remote.log) + [ListRecords(zone, recType, name)] +
          (if l.Listed? then DeleteCalls(zone, l.recs) else [])
      ensures var l := old(remote.ListAnswer(zone, recType, name));
        remote.records == if l.Listed? then Survivors(old(remote.records), zone, l.recs, remote.refuses)
                          else old(remote.records)
      ensures out == old(out) + DeleteNotes(zone, old(remote.ListAnswer(zone, recType, name)), remote.refuses)
      ensures remote.nextId == old(remote.nextId)
    {
      ghost var store := remote.records;
      var l := remote.ListDNSRecords(zone, recType, name);
      if l.ListFailed? {
        out := out + [Failed];
        return;
      }
      var recs := l.recs;
      if |recs| < 1 {
        out := out + [NoMatch];
        return;
      }
      ListedHeld(store, zone, recType, name);
      DeleteEach(zone, recs);
    }

    /** One turn of cmdDelete's loop: delete the i-th listed record and report how it went. */
    method DeleteOne(zone: ZoneId, recs: seq<Record>, i: nat) returns (ok: bool)
      requires remote.Valid() && UniqueIds(recs) && i < |recs| && recs[i].zone == zone
      requires HeldFrom(remote.records, recs, i)
      modifies this`out, remote
      ensures remote.Valid() && HeldFrom(remote.records, recs, i + 1) && remote.nextId == old(remote.nextId)
      ensures ok == DeleteTaken(zone, recs[i], remote.refuses)
      ensures remote.log == old(remote.log) + [DeleteRecord(zone, recs[i].id)]
      ensures remote.records == if ok then Without(old(remote.records), zone, recs[i].id) else old(remote.records)
      ensures out == old(out) + [if ok then RecordDeleted(recs[i].rtype, recs[i].name) else DeleteFailed(recs[i].name)]
    {
      var r := recs[i];
      HeldRecord(remote.records, zone, recs, i);
      LaterStillHeld(remote.records, zone, recs, i);
      ok := remote.DeleteDNSRecord(zone, r.id);
      if !ok {
        out := out + [DeleteFailed(r.name)];
        return;
      }
      out := out + [RecordDeleted(r.rtype, r.name)];
    }

    /** The loop of cmdDelete: one delete per record, carrying on after a failure. */
    method DeleteEach(zone: ZoneId, recs: seq<Record>)
      requires remote.Valid() && UniqueIds(recs)
      requires HeldFrom(remote.records, recs, 0)
      requires forall i :: 0 <= i < |recs| ==> recs[i].zone == zone
      modifies this`out, remote
      ensures remote.Valid()
      ensures remote.log == old(remote.log) + DeleteCalls(zone, recs)
      ensures remote.records == Survivors(old(remote.records), zone, recs, remote.refuses)
      ensures out == old(out) + DeleteReport(zone, recs, remote.refuses)
      ensures remote.nextId == old(remote.nextId)
    {
      for i := 0 to |recs|
        invariant remote.Valid()
        invariant remote.log == old(remote.log) + DeleteCalls(zone, recs[..i])
        invariant remote.records == Survivors(old(remote.records), zone, recs[..i], remote.refuses)
        invariant out == old(out) + DeleteReport(zone, recs[..i], remote.refuses)
        invariant HeldFrom(remote.records, recs, i)
        invariant remote.nextId == old(remote.nextId)
      {
        SurvivorsStep(old(remote.records), zone, recs, i, remote.refuses);
        ReportStep(zone, recs, i, remote.refuses);
        Regroup(old(remote.log), DeleteCalls(zone, recs[..i]), [DeleteRecord(zone, recs[i].id)]);
        var ok := DeleteOne(zone, recs, i);
        Regroup(old(out), DeleteReport(zone, recs[..i], remote.refuses), [out[|out| - 1]]);
      }
      assert recs[..|recs|] == recs;
    }

    /** cmdHelp: help for the whole tree, or for the command named by the first argument. */
    method CmdHelp(args: seq<string>)
      modifies this`out
      ensures out == old(out) + HelpNotes(args)
    {
      if |args| == 0 {
        out := out + [GroupHelp];
        return;
      }
      var r := lookup(args[0]);
      var note := LookupNote(r);
      if note.Some? {
        out := out + [note.value];
        return;
      }
      if r.Leaf? {
        out := out + [CommandHelp(r.cmd)];
      }
    }

    /**
     * Runs the handler of a command; the result is the handler's error,
     * which only cmdQuit sets.
     */
    method Dispatch(c: Cmd, args: seq<string>) returns (halt: bool)
      requires Valid()
      modifies this, remote
      ensures Valid()
      ensures |stdin| <= old(|stdin|) && (!interactive ==> stdin == old(stdin))
      ensures halt <==> c == Quit
      ensures Handled(c, args)
    {
      halt := c == Quit;
      if halt {
        return;
      }
      if c in {Help, List, Zone} {
        DispatchReading(c, args);
      } else {
        DispatchChange(c, args);
      }
    }

    /** The handlers of the commands that leave the records alone. */
    method DispatchReading(c: Cmd, args: seq<string>)
      requires Valid() && c in {Help, List, Zone}
      modifies this, remote
      ensures Valid()
      ensures |stdin| <= old(|stdin|) && (!interactive ==> stdin == old(stdin))
      ensures Handled(c, args)
    {
      match c {
        case Help => CmdHelp(args);
        case List => CmdList(args);
        case Zone => CmdSetZone(args);
      }
    }

    /** The handlers of the commands that change records. */
    method DispatchChange(c: Cmd, args: seq<string>)
      requires Valid() && c in {IP4, IP6, CName, Txt, Add, Delete}
      modifies this, remote
      ensures Valid()
      ensures |stdin| <= old(|stdin|) && (!interactive ==> stdin == old(stdin))
      ensures Handled(c, args)
    {
      match c {
        case Add => CmdAdd(args);
        case Delete => CmdDelete(args);
        case IP4 | IP6 | CName | Txt => CmdRecord(c, args);
      }
    }

    /**
     * processCmd: an empty line does nothing; a failed lookup prints a
     * message; a command runs its handler. Only quit asks to stop.
     */
    method ProcessCmd(line: string) returns (halt: bool)
      requires Valid()
      modifies this, remote
      ensures Valid()
      ensures |stdin| <= old(|stdin|) && (!interactive ==> stdin == old(stdin))
      ensures halt <==> line != "" && lookup(line).Leaf? && lookup(line).cmd == Quit
      ensures line == "" ==> Quiet([])
      ensures line != "" && LookupNote(lookup(line)).Some? ==> Quiet([LookupNote(lookup(line)).value])
      ensures line != "" && (lookup(line).NoNode? || lookup(line).GroupNode?) ==> Quiet([])
      ensures line != "" && lookup(line).Leaf? ==> Handled(lookup(line).cmd, lookup(line).args)
    {
      halt := false;
      if line == "" {
        return;
      }
      var r := lookup(line);
      var note := LookupNote(r);
      if note.Some? {
        out := out + [note.value];
        return;
      }
      if r.Leaf? {
        halt := Dispatch(r.cmd, r.args);
      }
    }

    /**
     * runInteractive: read and process lines until the input ends or a
     * line runs quit. quitLine is the line that ran quit, if one did.
     */
    method RunInteractive() returns (ghost quitLine: Option<string>)
      requires Valid()
      modifies this, remote
      ensures Valid()
      ensures quitLine.None? ==> stdin == ""
      ensures quitLine.Some? ==>
        quitLine.value != "" && lookup(quitLine.value).Leaf? && lookup(quitLine.value).cmd == Quit
    {
      quitLine := None;
      while true
        invariant Valid()
        decreases |stdin|
      {
        var line, ok := ReadString();
        if !ok {
          break;
        }
        var halt := ProcessCmd(line);
        if halt {
          quitLine := Some(line);
          break;
        }
      }
    }

    /**
     * main: the interactive loop, or the rebuilt argument line processed
     * once. quitLine is, when interactive, the line that ran quit, if one did.
     */
    method Run() returns (ghost quitLine: Option<string>)
      requires Valid()
      modifies this, remote
      ensures Valid()
      ensures interactive ==>
        && (quitLine.None? ==> stdin == "")
        && (quitLine.Some? ==>
              quitLine.value != "" && lookup(quitLine.value).Leaf? && lookup(quitLine.value).cmd == Quit)
      ensures !interactive ==> stdin == old(stdin)
      ensures !interactive ==>
        var line := Args.JoinSpaced(Args.Requote(osArgs));
        && (line == "" ==> Quiet([]))
        && (line != "" && LookupNote(lookup(line)).Some? ==> Quiet([LookupNote(lookup(line)).value]))
        && (line != "" && (lookup(line).NoNode? || lookup(line).GroupNode?) ==> Quiet([]))
        && (line != "" && lookup(line).Leaf? ==> Handled(lookup(line).cmd, lookup(line).args))
    {
      quitLine := None;
      if interactive {
        quitLine := RunInteractive();
      } else {
        var line := Args.FixupArgs(osArgs);
        var _ := ProcessCmd(line);
      }
    }
  }
}
