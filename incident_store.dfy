/** Incident records (src/storage/dynamodb_client.py): the item put_incident builds and its
    single write to the table. The clock and the uuid are parameters. */
module IncidentStore {
  import opened Wrappers
  import opened Strings
  import opened Json

  /** The item as written: key attributes pk / sk and the copied fields. */
  datatype Item = Item(
    pk: string,
    sk: string,
    eventType: string,
    instanceId: Value,
    remediationType: Value,
    action: Value,
    message: Value,
    createdAt: string,
    rawEvent: Value)

  const PK_PREFIX := "INCIDENT#"

  /** The item put_incident builds from its arguments, the timestamp `now` and the id; the
      remediation's `.get` calls give None for a missing key and raise AttributeError when it
      is not a dict. */
  function MakeItem(eventType: string, instanceId: Value, remediation: Value, rawEvent: Value,
                    now: string, incidentId: string): (r: Result<Item>)
    ensures r.Raised? <==> !remediation.Object?
    ensures r.Ok? ==> r.value.pk == PK_PREFIX + eventType && StartsWith(r.value.pk, PK_PREFIX)
    ensures r.Ok? ==>
      && r.value.createdAt == now && StartsWith(r.value.sk, r.value.createdAt)
      && r.value.sk == now + "#" + incidentId
    ensures r.Ok? ==>
      && r.value.eventType == eventType && r.value.instanceId == instanceId
      && r.value.rawEvent == rawEvent
    ensures r.Ok? ==>
      && r.value.remediationType == Lookup(remediation.fields, "remediation_type").GetOr(Null)
      && r.value.action == Lookup(remediation.fields, "action").GetOr(Null)
      && r.value.message == Lookup(remediation.fields, "message").GetOr(Null)
  {
    match remediation
    case Object(fields) =>
      Ok(Item(PK_PREFIX + eventType, now + "#" + incidentId, eventType, instanceId,
              Lookup(fields, "remediation_type").GetOr(Null), Lookup(fields, "action").GetOr(Null),
              Lookup(fields, "message").GetOr(Null), now, rawEvent))
    case _ => Raised("AttributeError")
  }

  /** Two incidents recorded at the same instant with different ids get different sort keys. */
  lemma DistinctIdsDistinctKeys(eventType: string, instanceId: Value, remediation: Value,
                                rawEvent: Value, now: string, id1: string, id2: string,
                                other: Value, otherEvent: Value)
    requires id1 != id2
    requires MakeItem(eventType, instanceId, remediation, rawEvent, now, id1).Ok?
    requires MakeItem(eventType, other, remediation, otherEvent, now, id2).Ok?
    ensures MakeItem(eventType, instanceId, remediation, rawEvent, now, id1).value.sk
         != MakeItem(eventType, other, remediation, otherEvent, now, id2).value.sk
  {
    var sk1 := now + "#" + id1;
    var sk2 := now + "#" + id2;
    assert sk1[|now| + 1..] == id1;
    assert sk2[|now| + 1..] == id2;
  }

  /** The incident table: every item written so far, and the error a write answers with. */
  class IncidentTable {
    var items: seq<Item>
    const writeError: Option<string>

    constructor (writeError: Option<string>)
      ensures this.writeError == writeError && items == []
    {
      this.writeError := writeError;
      items := [];
    }

    /** `table.put_item(Item=item)`: appends the item, or raises and keeps the table. */
    method PutItem(item: Item) returns (r: Result<()>)
      modifies this
      ensures r.Raised? <==> writeError.Some?
      ensures r.Ok? ==> items == old(items) + [item]
      ensures r.Raised? ==> items == old(items) && r.error == writeError.value
    {
      if writeError.Some? {
        return Raised(writeError.value);
      }
      items := items + [item];
      return Ok(());
    }
  }

  /** put_incident: build the item, write it once, return the item written. */
  method PutIncident(table: IncidentTable, eventType: string, instanceId: Value, remediation: Value,
                     rawEvent: Value, now: string, incidentId: string) returns (r: Result<Item>)
    modifies table
    ensures var built := MakeItem(eventType, instanceId, remediation, rawEvent, now, incidentId);
      if built.Raised? then r == built && table.items == old(table.items)
      else if table.writeError.Some? then
        r == Raised(table.writeError.value) && table.items == old(table.items)
      else r == built && table.items == old(table.items) + [built.value]
  {
    var item :- MakeItem(eventType, instanceId, remediation, rawEvent, now, incidentId);
    var written := table.PutItem(item);
    if written.Raised? {
      return Raised(written.error);
    }
    return Ok(item);
  }
}
