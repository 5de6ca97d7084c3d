/**
 * The WebSocket observers and what `broadcast` and the on-connection
 * handler send them. A client is a transport state and the list of
 * messages delivered to it so far.
 */
module Broadcast {
  import opened Record

  /** `{ type: 'connection', data }`, serialized once and sent as is. */
  datatype Message = ConnectionMessage(data: ConnectionState)

  /** The WebSocket readyState of an open transport. */
  const OPEN: int := 1

  datatype Client = Client(readyState: int, outbox: seq<Message>)

  function Send(c: Client, m: Message): Client {
    c.(outbox := c.outbox + [m])
  }

  /**
   * `broadcast(m)` over the clients in order: an open client is sent `m`
   * once, any other client is skipped and left as it was.
   */
  function Deliver(cs: seq<Client>, m: Message): (r: seq<Client>)
    ensures |r| == |cs|
    ensures forall i :: 0 <= i < |cs| && cs[i].readyState == OPEN ==>
      r[i].readyState == OPEN && r[i].outbox == cs[i].outbox + [m]
    ensures forall i :: 0 <= i < |cs| && cs[i].readyState != OPEN ==> r[i] == cs[i]
  {
    if cs == [] then []
    else [if cs[0].readyState == OPEN then Send(cs[0], m) else cs[0]] + Deliver(cs[1..], m)
  }

  /** Every open client ends with the same payload as its last message. */
  lemma DeliverSamePayload(cs: seq<Client>, m: Message, i: int, j: int)
    requires 0 <= i < |cs| && 0 <= j < |cs|
    requires cs[i].readyState == OPEN && cs[j].readyState == OPEN
    ensures var r := Deliver(cs, m);
      r[i].outbox[|r[i].outbox| - 1] == r[j].outbox[|r[j].outbox| - 1] == m
  {
  }

  /** Broadcasting to no open client changes nothing. */
  lemma DeliverNoneOpen(cs: seq<Client>, m: Message)
    requires forall i :: 0 <= i < |cs| ==> cs[i].readyState != OPEN
    ensures Deliver(cs, m) == cs
  {
  }

  /** Successive broadcasts reach each open client in the order they were issued. */
  lemma DeliverInOrder(cs: seq<Client>, m1: Message, m2: Message, i: int)
    requires 0 <= i < |cs| && cs[i].readyState == OPEN
    ensures Deliver(Deliver(cs, m1), m2)[i].outbox == cs[i].outbox + [m1, m2]
  {
  }

  /** The client the on-connection handler admits: open, sent the current snapshot only. */
  function Admit(cs: seq<Client>, snapshot: ConnectionState): (r: seq<Client>)
    ensures |r| == |cs| + 1 && r[..|cs|] == cs
    ensures r[|cs|] == Client(OPEN, [ConnectionMessage(snapshot)])
  {
    cs + [Client(OPEN, [ConnectionMessage(snapshot)])]
  }
}
