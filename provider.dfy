/**
 * The remote DNS account behind the Cloudflare client, reduced to what
 * cf.go relies on: a list of records, a table from zone names to zone
 * identifiers, and an oracle saying which calls the remote refuses. Every
 * call made is appended to a log, so that "no remote call" can be stated.
 */
module Provider {
  import opened Wrappers
  import opened Records

  class Account {
    var records: seq<Record>
    /** The identifier the next created record gets. */
    var nextId: nat
    /** Every call made on the account, in order. */
    var log: seq<Call>
    const zoneIds: map<string, ZoneId>
    /** The remote's failures (network errors, rejected parameters, ...). */
    const refuses: Call -> bool

    ghost predicate Valid()
      reads this`records, this`nextId
    {
      UniqueIds(records) && forall i :: 0 <= i < |records| ==> records[i].id < nextId
    }

    constructor (records0: seq<Record>, nextId0: nat, zoneIds0: map<string, ZoneId>, refuses0: Call -> bool)
      requires UniqueIds(records0) && forall i :: 0 <= i < |records0| ==> records0[i].id < nextId0
      ensures Valid() && log == []
      ensures records == records0 && nextId == nextId0
      ensures zoneIds == zoneIds0 && refuses == refuses0
    {
      records, nextId, log := records0, nextId0, [];
      zoneIds, refuses := zoneIds0, refuses0;
    }

    /** Whether the account takes a change: an update needs its record. */
    predicate Accepts(c: Change)
      reads this`records
    {
      !refuses(Submit(c)) && (c.Update? ==> Holds(records, c.zone, c.id))
    }

    /** The answer a list call gets from the current records. */
    function ListAnswer(zone: ZoneId, rtype: string, name: string): Listing
      reads this`records
    {
      if refuses(ListRecords(zone, rtype, name)) then ListFailed
      else Listed(Matching(records, zone, rtype, name))
    }

    method ZoneIDByName(zoneName: string) returns (z: Option<ZoneId>)
      modifies this`log
      ensures log == old(log) + [ZoneIdByName(zoneName)]
      ensures z == if !refuses(ZoneIdByName(zoneName)) && zoneName in zoneIds
                   then Some(zoneIds[zoneName]) else None
    {
      log := log + [ZoneIdByName(zoneName)];
      if !refuses(ZoneIdByName(zoneName)) && zoneName in zoneIds {
        z := Some(zoneIds[zoneName]);
      } else {
        z := None;
      }
    }

    method ListDNSRecords(zone: ZoneId, rtype: string, name: string) returns (l: Listing)
      modifies this`log
      ensures log == old(log) + [ListRecords(zone, rtype, name)]
      ensures l == ListAnswer(zone, rtype, name)
    {
      l := ListAnswer(zone, rtype, name);
      log := log + [ListRecords(zone, rtype, name)];
    }

    /** CreateDNSRecord or UpdateDNSRecord, according to the change. */
    method ApplyChange(c: Change) returns (ok: bool)
      requires Valid()
      modifies this
      ensures Valid()
      ensures log == old(log) + [Submit(c)]
      ensures ok == old(Accepts(c))
      ensures records == if ok then Applied(old(records), c, old(nextId)) else old(records)
      ensures nextId == if ok && c.Create? then old(nextId) + 1 else old(nextId)
    {
      ok := Accepts(c);
      log := log + [Submit(c)];
      if ok {
        records := Applied(records, c, nextId);
        if c.Create? {
          nextId := nextId + 1;
        }
      }
    }

    method DeleteDNSRecord(zone: ZoneId, id: nat) returns (ok: bool)
      requires Valid()
      modifies this
      ensures Valid() && nextId == old(nextId)
      ensures log == old(log) + [DeleteRecord(zone, id)]
      ensures ok == (!refuses(DeleteRecord(zone, id)) && Holds(old(records), zone, id))
      ensures records == if ok then Without(old(records), zone, id) else old(records)
    {
      ok := !refuses(DeleteRecord(zone, id)) && Holds(records, zone, id);
      log := log + [DeleteRecord(zone, id)];
      if ok {
        WithoutUnique(records, zone, id);
        WithoutMembers(records, zone, id);
        records := Without(records, zone, id);
      }
    }
  }
}
