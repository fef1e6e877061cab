/**
 * DNS records as the remote account keeps them, the calls cf.go makes on
 * them, and the pure decisions and layouts cf.go computes from them.
 */
module Records {
  import opened Wrappers

  type ZoneId = string

  /** One DNS record of the remote account; ttl 1 is the provider's "automatic". */
  datatype Record = Record(id: nat, zone: ZoneId, rtype: string, name: string,
                           content: string, ttl: int, proxiable: bool)

  const AutoTTL: int := 1

  /** The answer to a ListDNSRecords call. */
  datatype Listing = ListFailed | Listed(recs: seq<Record>)

  /** A create or an update, with the parameters cf.go passes. */
  datatype Change =
    | Create(zone: ZoneId, rtype: string, name: string, content: string, ttl: int, proxiable: bool)
    | Update(zone: ZoneId, id: nat, rtype: string, name: string, content: string, ttl: int)

  /** The remote calls cf.go makes. */
  datatype Call =
    | ZoneIdByName(zoneName: string)
    | ListRecords(zone: ZoneId, rtype: string, name: string)
    | Submit(change: Change)
    | DeleteRecord(zone: ZoneId, id: nat)

  // ---------------------------------------------------------------------
  // The record store.

  /** The list filter: an empty type or name filters nothing. */
  predicate Matches(r: Record, zone: ZoneId, rtype: string, name: string) {
    r.zone == zone && (rtype == "" || r.rtype == rtype) && (name == "" || r.name == name)
  }

  /**
   * An empty name filter is no filter: deleting records of one type named ""
   * lists, and so deletes, every record of that type in the zone, whatever
   * its name; a store holding only such records is listed whole, in order.
   */
  lemma {:induction false} EmptyNameMatchesAll(store: seq<Record>, zone: ZoneId, rtype: string)
    ensures forall r :: r in Matching(store, zone, rtype, "") <==>
      r in store && r.zone == zone && (rtype == "" || r.rtype == rtype)
    ensures (forall i :: 0 <= i < |store| ==> store[i].zone == zone && store[i].rtype == rtype) ==>
      Matching(store, zone, rtype, "") == store
  {
    if store != [] && forall i :: 0 <= i < |store| ==> store[i].zone == zone && store[i].rtype == rtype {
      assert forall i :: 0 <= i < |store[1..]| ==> store[1..][i] == store[i + 1];
      EmptyNameMatchesAll(store[1..], zone, rtype);
      assert [store[0]] + store[1..] == store;
    }
  }

  /** The records a list call returns, in store order. */
  function Matching(store: seq<Record>, zone: ZoneId, rtype: string, name: string): (m: seq<Record>)
    ensures |m| <= |store|
    ensures forall r :: r in m <==> r in store && Matches(r, zone, rtype, name)
  {
    if store == [] then []
    else (if Matches(store[0], zone, rtype, name) then [store[0]] else [])
         + Matching(store[1..], zone, rtype, name)
  }

  /** The provider's record identifiers are unique. */
  ghost predicate UniqueIds(store: seq<Record>) {
    forall i, j :: 0 <= i < j < |store| ==> store[i].id != store[j].id
  }

  predicate Holds(store: seq<Record>, zone: ZoneId, id: nat) {
    exists i :: 0 <= i < |store| && store[i].zone == zone && store[i].id == id
  }

  /** The record an update leaves behind. */
  function Revised(r: Record, c: Change): Record
    requires c.Update?
  {
    if r.zone == c.zone && r.id == c.id
    then r.(rtype := c.rtype, name := c.name, content := c.content, ttl := c.ttl)
    else r
  }

  function UpdateById(store: seq<Record>, c: Change): (after: seq<Record>)
    requires c.Update?
    ensures |after| == |store|
    ensures forall i :: 0 <= i < |store| ==> after[i] == Revised(store[i], c)
  {
    if store == [] then [] else [Revised(store[0], c)] + UpdateById(store[1..], c)
  }

  /** The store once a change is accepted; newId is the identifier a create gets. */
  function Applied(store: seq<Record>, c: Change, newId: nat): (after: seq<Record>)
    ensures c.Update? ==> |after| == |store|
    ensures c.Create? ==>
      |after| == |store| + 1 && after[..|store|] == store &&
      after[|store|].id == newId && after[|store|].zone == c.zone
  {
    match c
    case Create(zone, rtype, name, content, ttl, proxiable) =>
      store + [Record(newId, zone, rtype, name, content, ttl, proxiable)]
    case Update(_, _, _, _, _, _) => UpdateById(store, c)
  }

  /** The store without the record that has this identifier in this zone. */
  function Without(store: seq<Record>, zone: ZoneId, id: nat): (after: seq<Record>)
    ensures |after| <= |store|
  {
    if store == [] then []
    else (if store[0].zone == zone && store[0].id == id then [] else [store[0]])
         + Without(store[1..], zone, id)
  }

  /** A delete removes exactly the records with that zone and identifier. */
  lemma {:induction false} WithoutMembers(store: seq<Record>, zone: ZoneId, id: nat)
    ensures forall r :: r in Without(store, zone, id) <==> r in store && !(r.zone == zone && r.id == id)
  {
    if store != [] {
      WithoutMembers(store[1..], zone, id);
      assert store == [store[0]] + store[1..];
    }
  }

  // ---------------------------------------------------------------------
  // Add or update (addOrUpdateRecord).

  /**
   * The mutating call addOrUpdateRecord makes, if any, given the answer to
   * its list call: only the first listed record is looked at.
   */
  function Decide(l: Listing, zone: ZoneId, rtype: string, name: string, content: string): (d: Option<Change>)
    ensures d.None? <==> l.Listed? && l.recs != [] && l.recs[0].content == content
    ensures (l.ListFailed? || l.recs == []) ==>
              d == Some(Create(zone, rtype, name, content, AutoTTL, false))
    ensures l.Listed? && l.recs != [] && l.recs[0].content != content ==>
              var r := l.recs[0];
              d == Some(Update(zone, r.id, r.rtype, name, content, r.ttl))
  {
    if l.Listed? && |l.recs| > 0 then
      var r := l.recs[0];
      if r.content != content then Some(Update(zone, r.id, r.rtype, name, content, r.ttl)) else None
    else
      Some(Create(zone, rtype, name, content, AutoTTL, false))
  }

  /** Records listed after the first one never change the decision. */
  lemma DecideLooksAtFirstOnly(r: Record, xs: seq<Record>, ys: seq<Record>,
                               zone: ZoneId, rtype: string, name: string, content: string)
    ensures Decide(Listed([r] + xs), zone, rtype, name, content)
         == Decide(Listed([r] + ys), zone, rtype, name, content)
  {
  }

  lemma MatchingUnique(store: seq<Record>, zone: ZoneId, rtype: string, name: string)
    requires UniqueIds(store)
    ensures UniqueIds(Matching(store, zone, rtype, name))
  {
    if store != [] {
      MatchingUnique(store[1..], zone, rtype, name);
      var tail := Matching(store[1..], zone, rtype, name);
      forall j | 0 <= j < |tail|
        ensures store[0].id != tail[j].id
      {
        assert tail[j] in store[1..];
        var i :| 0 <= i < |store[1..]| && store[1..][i] == tail[j];
        assert store[i + 1] == tail[j];
      }
    }
  }

  lemma WithoutUnique(store: seq<Record>, zone: ZoneId, id: nat)
    requires UniqueIds(store)
    ensures UniqueIds(Without(store, zone, id))
  {
    if store != [] {
      WithoutUnique(store[1..], zone, id);
      WithoutMembers(store[1..], zone, id);
      var tail := Without(store[1..], zone, id);
      forall j | 0 <= j < |tail|
        ensures store[0].id != tail[j].id
      {
        assert tail[j] in store[1..];
        var i :| 0 <= i < |store[1..]| && store[1..][i] == tail[j];
        assert store[i + 1] == tail[j];
      }
    }
  }

  /** The position in the store of the first record a list call returns. */
  lemma {:induction false} FirstMatchAt(store: seq<Record>, zone: ZoneId, rtype: string, name: string)
      returns (k: nat)
    requires Matching(store, zone, rtype, name) != []
    ensures k < |store| && store[k] == Matching(store, zone, rtype, name)[0]
    ensures forall j :: 0 <= j < k ==> !Matches(store[j], zone, rtype, name)
  {
    if Matches(store[0], zone, rtype, name) {
      k := 0;
    } else {
      var k' := FirstMatchAt(store[1..], zone, rtype, name);
      k := k' + 1;
    }
  }

  /**
   * Updating the first match only rewrites that record: with identifiers
   * unique, no other record carries its zone and identifier.
   */
  lemma {:induction false} UpdateRevisesOne(store: seq<Record>, k: nat, c: Change)
    requires UniqueIds(store) && k < |store| && c.Update?
    requires store[k].zone == c.zone && store[k].id == c.id
    ensures forall i :: 0 <= i < |store| && i != k ==> UpdateById(store, c)[i] == store[i]
  {
  }

  /**
   * The update keeps the first match's type, identifier, TTL and proxy flag
   * and sets its content (and its name, to the one asked for, which is the
   * name it already had unless that name is empty); every other record stays.
   */
  lemma UpdateKeepsFirstMatch(store: seq<Record>, zone: ZoneId, rtype: string, name: string, content: string)
    requires UniqueIds(store)
    requires var m := Matching(store, zone, rtype, name); m != [] && m[0].content != content
    ensures var m := Matching(store, zone, rtype, name);
      var d := Decide(Listed(m), zone, rtype, name, content);
      var after := Applied(store, d.value, 0);
      && |after| == |store|
      && (forall i :: 0 <= i < |store| ==>
            after[i] == if store[i] == m[0] then m[0].(name := name, content := content) else store[i])
      && (name != "" ==> m[0].(name := name, content := content) == m[0].(content := content))
  {
    var m := Matching(store, zone, rtype, name);
    var k := FirstMatchAt(store, zone, rtype, name);
    var c := Decide(Listed(m), zone, rtype, name, content).value;
    UpdateRevisesOne(store, k, c);
    forall i | 0 <= i < |store| && i != k
      ensures store[i] != m[0]
    {
      if i < k { assert store[i].id != store[k].id; } else { assert store[k].id != store[i].id; }
    }
  }

  /**
   * Running the add-or-update twice with the same content, the second run
   * after the first run's change was accepted, makes no second change: the
   * first listed record then already holds the content.
   */
  lemma AddOrUpdateIdempotent(store: seq<Record>, zone: ZoneId, rtype: string, name: string,
                              content: string, newId: nat)
    requires UniqueIds(store)
    ensures var d := Decide(Listed(Matching(store, zone, rtype, name)), zone, rtype, name, content);
      var after := if d.Some? then Applied(store, d.value, newId) else store;
      Decide(Listed(Matching(after, zone, rtype, name)), zone, rtype, name, content) == None
  {
    var m := Matching(store, zone, rtype, name);
    var d := Decide(Listed(m), zone, rtype, name, content);
    if d.Some? {
      var after := Applied(store, d.value, newId);
      if m == [] {
        var r := Record(newId, zone, rtype, name, content, AutoTTL, false);
        MatchingAppend(store, r, zone, rtype, name);
      } else {
        var k := FirstMatchAt(store, zone, rtype, name);
        UpdateKeepsFirstMatch(store, zone, rtype, name, content);
        var revised := m[0].(name := name, content := content);
        assert m[0] in m;
        assert after[k] == revised;
        assert forall j :: 0 <= j < k ==> after[j] == store[j];
        MatchingFrom(after, k, zone, rtype, name);
      }
    }
  }

  /**
   * Idempotence needs the first run's list call to succeed as well. When it
   * fails, the first run creates a second record of that type and name; the
   * second run then lists the older record first, finds the old content
   * there and updates it.
   */
  lemma FailedListNotIdempotent()
    ensures var store := [Record(1, "z", "A", "h", "old", AutoTTL, false)];
      var d := Decide(ListFailed, "z", "A", "h", "new");
      && d == Some(Create("z", "A", "h", "new", AutoTTL, false))
      && Decide(Listed(Matching(Applied(store, d.value, 2), "z", "A", "h")), "z", "A", "h", "new")
           == Some(Update("z", 1, "A", "h", "new", AutoTTL))
  {
    var store := [Record(1, "z", "A", "h", "old", AutoTTL, false)];
    var created := Record(2, "z", "A", "h", "new", AutoTTL, false);
    assert Applied(store, Create("z", "A", "h", "new", AutoTTL, false), 2) == store + [created];
    assert Matching(store + [created], "z", "A", "h") == [store[0], created];
  }

  lemma {:induction false} MatchingAppend(store: seq<Record>, r: Record, zone: ZoneId, rtype: string, name: string)
    requires Matching(store, zone, rtype, name) == [] && Matches(r, zone, rtype, name)
    ensures Matching(store + [r], zone, rtype, name) == [r]
  {
    if store == [] {
      assert [] + [r] == [r];
    } else {
      assert (store + [r])[1..] == store[1..] + [r];
      MatchingAppend(store[1..], r, zone, rtype, name);
    }
  }

  /** A store whose first match sits at k lists store[k] first. */
  lemma {:induction false} MatchingFrom(store: seq<Record>, k: nat, zone: ZoneId, rtype: string, name: string)
    requires k < |store| && Matches(store[k], zone, rtype, name)
    requires forall j :: 0 <= j < k ==> !Matches(store[j], zone, rtype, name)
    ensures Matching(store, zone, rtype, name) != [] && Matching(store, zone, rtype, name)[0] == store[k]
  {
    if k > 0 {
      MatchingFrom(store[1..], k - 1, zone, rtype, name);
    }
  }

  // ---------------------------------------------------------------------
  // Bulk delete (cmdDelete).

  /** One delete call per listed record, in list order. */
  function DeleteCalls(zone: ZoneId, recs: seq<Record>): (calls: seq<Call>)
    ensures |calls| == |recs|
    ensures forall i :: 0 <= i < |recs| ==> calls[i] == DeleteRecord(zone, recs[i].id)
  {
    seq(|recs|, i requires 0 <= i < |recs| => DeleteRecord(zone, recs[i].id))
  }

  /** Whether the remote takes the delete of this record. */
  predicate DeleteTaken(zone: ZoneId, r: Record, refuses: Call -> bool) {
    !refuses(DeleteRecord(zone, r.id))
  }

  /** The store after the delete of each listed record was tried in turn. */
  function Survivors(store: seq<Record>, zone: ZoneId, recs: seq<Record>, refuses: Call -> bool): (left: seq<Record>)
    ensures |left| <= |store|
  {
    if recs == [] then store
    else
      var before := Survivors(store, zone, recs[..|recs| - 1], refuses);
      var r := recs[|recs| - 1];
      if DeleteTaken(zone, r, refuses) then Without(before, zone, r.id) else before
  }

  /** The listed records from index k on are all still in the store. */
  ghost predicate HeldFrom(store: seq<Record>, recs: seq<Record>, k: nat) {
    forall j :: k <= j < |recs| ==> recs[j] in store
  }

  /** Every listed record is in the store, in the zone listed, and identifiers stay unique. */
  lemma ListedHeld(store: seq<Record>, zone: ZoneId, rtype: string, name: string)
    requires UniqueIds(store)
    ensures var m := Matching(store, zone, rtype, name);
      HeldFrom(store, m, 0) && UniqueIds(m) && forall i :: 0 <= i < |m| ==> m[i].zone == zone
  {
    MatchingUnique(store, zone, rtype, name);
    var m := Matching(store, zone, rtype, name);
    assert forall i :: 0 <= i < |m| ==> m[i] in m;
  }

  /** Deleting one listed record leaves the later ones in place. */
  lemma LaterStillHeld(store: seq<Record>, zone: ZoneId, recs: seq<Record>, i: nat)
    requires UniqueIds(recs) && i < |recs|
    requires HeldFrom(store, recs, i)
    ensures HeldFrom(Without(store, zone, recs[i].id), recs, i + 1)
  {
    WithoutMembers(store, zone, recs[i].id);
    forall j | i < j < |recs|
      ensures recs[j] in Without(store, zone, recs[i].id)
    {
      assert recs[i].id != recs[j].id;
    }
  }

  /** A listed record that is still in the store can be deleted. */
  lemma HeldRecord(store: seq<Record>, zone: ZoneId, recs: seq<Record>, i: nat)
    requires i < |recs| && HeldFrom(store, recs, i) && recs[i].zone == zone
    ensures Holds(store, zone, recs[i].id)
  {
  }

  /** Survivors after one more attempt. */
  lemma SurvivorsStep(store: seq<Record>, zone: ZoneId, recs: seq<Record>, i: nat, refuses: Call -> bool)
    requires i < |recs|
    ensures Survivors(store, zone, recs[..i + 1], refuses) ==
      var before := Survivors(store, zone, recs[..i], refuses);
      if DeleteTaken(zone, recs[i], refuses) then Without(before, zone, recs[i].id) else before
    ensures DeleteCalls(zone, recs[..i + 1]) == DeleteCalls(zone, recs[..i]) + [DeleteRecord(zone, recs[i].id)]
  {
    assert recs[..i + 1][..i] == recs[..i];
  }

  /** x is named by a delete the remote took. */
  predicate Removed(x: Record, zone: ZoneId, recs: seq<Record>, refuses: Call -> bool) {
    x.zone == zone && exists i :: 0 <= i < |recs| && recs[i].id == x.id && DeleteTaken(zone, recs[i], refuses)
  }

  /**
   * The records left are exactly those of the store that no taken delete
   * named: a refused delete removes nothing and stops nothing.
   */
  lemma {:induction false} SurvivorsExactly(store: seq<Record>, zone: ZoneId, recs: seq<Record>, refuses: Call -> bool)
    ensures forall x :: x in Survivors(store, zone, recs, refuses) <==>
      x in store && !Removed(x, zone, recs, refuses)
  {
    if recs != [] {
      var init := recs[..|recs| - 1];
      var last := recs[|recs| - 1];
      SurvivorsExactly(store, zone, init, refuses);
      WithoutMembers(Survivors(store, zone, init, refuses), zone, last.id);
      forall x: Record
        ensures Removed(x, zone, recs, refuses) <==>
          Removed(x, zone, init, refuses) || (x.zone == zone && last.id == x.id && DeleteTaken(zone, last, refuses))
      {
        if Removed(x, zone, recs, refuses) {
          var i :| 0 <= i < |recs| && recs[i].id == x.id && DeleteTaken(zone, recs[i], refuses);
          if i < |init| { assert init[i] == recs[i]; }
        }
        if Removed(x, zone, init, refuses) {
          var i :| 0 <= i < |init| && init[i].id == x.id && DeleteTaken(zone, init[i], refuses);
          assert recs[i] == init[i];
        }
      }
    }
  }

  // ---------------------------------------------------------------------
  // The list command's layout (cmdListDomains).

  /** ASCII upper-casing of one character. */
  function UpperChar(c: char): char {
    if 'a' <= c <= 'z' then (c as int - 32) as char else c
  }

  /** The record type filter of the list command, upper-cased. */
  function ToUpper(s: string): (r: string)
    ensures |r| == |s|
    ensures forall i :: 0 <= i < |s| ==> r[i] == UpperChar(s[i])
    ensures forall i :: 0 <= i < |r| ==> !('a' <= r[i] <= 'z')
  {
    if s == [] then [] else [UpperChar(s[0])] + ToUpper(s[1..])
  }

  /** The two padded columns of the list output. */
  datatype Column = TypeColumn | NameColumn

  function Field(r: Record, col: Column): string {
    match col
    case TypeColumn => r.rtype
    case NameColumn => r.name
  }

  /**
   * The width of a column: the longest entry in it, 0 when there is no
   * record.
   */
  function Widest(recs: seq<Record>, col: Column): (w: nat)
    ensures forall i :: 0 <= i < |recs| ==> |Field(recs[i], col)| <= w
    ensures w == 0 || exists i :: 0 <= i < |recs| && |Field(recs[i], col)| == w
  {
    if recs == [] then 0
    else
      var w := Widest(recs[..|recs| - 1], col);
      var last := |Field(recs[|recs| - 1], col)|;
      if last > w then last else w
  }

  /** The loop of cmdListDomains that sizes both columns in one pass. */
  method ColumnWidths(recs: seq<Record>) returns (widthType: nat, widthName: nat)
    ensures widthType == Widest(recs, TypeColumn)
    ensures widthName == Widest(recs, NameColumn)
  {
    widthType, widthName := 0, 0;
    for i := 0 to |recs|
      invariant widthType == Widest(recs[..i], TypeColumn)
      invariant widthName == Widest(recs[..i], NameColumn)
    {
      assert recs[..i + 1][..i] == recs[..i];
      if |recs[i].name| > widthName {
        widthName := |recs[i].name|;
      }
      if |recs[i].rtype| > widthType {
        widthType := |recs[i].rtype|;
      }
    }
    assert recs[..|recs|] == recs;
  }

  function Spaces(n: nat): (r: string)
    ensures |r| == n && forall i :: 0 <= i < n ==> r[i] == ' '
  {
    if n == 0 then [] else [' '] + Spaces(n - 1)
  }

  /** "%-*s": s left-justified in a field of width w, never cut. */
  function PadRight(s: string, w: nat): (p: string)
    ensures |p| == if |s| < w then w else |s|
    ensures p[..|s|] == s && forall i :: |s| <= i < |p| ==> p[i] == ' '
  {
    if |s| < w then s + Spaces(w - |s|) else s
  }

  /** One printed row: type, name and content, the first two padded. */
  function Row(r: Record, widthType: nat, widthName: nat): string
  {
    PadRight(r.rtype, widthType) + " " + PadRight(r.name, widthName) + " " + r.content
  }

  /** All printed rows, in list order. */
  function Table(recs: seq<Record>, widthType: nat, widthName: nat): (rows: seq<string>)
    ensures |rows| == |recs|
    ensures forall i :: 0 <= i < |recs| ==> rows[i] == Row(recs[i], widthType, widthName)
  {
    seq(|recs|, i requires 0 <= i < |recs| => Row(recs[i], widthType, widthName))
  }

  /**
   * When the widths cover a record, its row has the type at column 0, the
   * name at column widthType + 1 and the content at column
   * widthType + widthName + 2, blanks in between: every row lines up.
   */
  lemma RowLayout(r: Record, widthType: nat, widthName: nat)
    requires |r.rtype| <= widthType && |r.name| <= widthName
    ensures var line := Row(r, widthType, widthName);
      var c := widthType + widthName + 2;
      && |line| == c + |r.content|
      && line[..|r.rtype|] == r.rtype
      && line[widthType + 1..widthType + 1 + |r.name|] == r.name
      && line[c..] == r.content
      && (forall j :: |r.rtype| <= j <= widthType ==> line[j] == ' ')
      && (forall j :: widthType + 1 + |r.name| <= j < c ==> line[j] == ' ')
  {
  }

  /** Rows built with the widths ColumnWidths computes all line up. */
  lemma TableAligned(recs: seq<Record>, widthType: nat, widthName: nat)
    requires forall i :: 0 <= i < |recs| ==> |recs[i].rtype| <= widthType && |recs[i].name| <= widthName
    ensures forall i :: 0 <= i < |recs| ==>
      var row := Table(recs, widthType, widthName)[i];
      |row| >= widthType + widthName + 2 && row[widthType + widthName + 2..] == recs[i].content
  {
  }
}
