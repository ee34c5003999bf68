/**
  The server's command table (server/app/services.py): enqueue, claim, acknowledge, expire.

  Times are integers counting microseconds, the resolution of the stored timestamps.
  The first part gives every operation as a function on the table; `CommandStore` is the
  imperative code, proved to compute exactly those functions.
*/
module Commands {
  import opened Options

  type CommandId = string

  /** A command belongs to one installation of one device. */
  datatype Owner = Owner(device: string, installation: string)

  datatype Verdict = Succeeded | Failed | Cancelled

  /** SUCCEEDED, FAILED and CANCELLED are the settled states; nothing else is terminal for an ack. */
  datatype CommandState = Queued | Delivered | Expired | Settled(verdict: Verdict)

  datatype Row = Row(
    owner: Owner,
    kind: string,
    payloadHash: string,
    state: CommandState,
    createdAt: int,
    expiresAt: int,
    deliveredAt: Option<int>,
    ackedAt: Option<int>,
    attempts: nat,
    result: string)

  type Table = map<CommandId, Row>

  /** The body of an ack, together with the credential it is sent under. */
  datatype Ack = Ack(owner: Owner, id: CommandId, verdict: Verdict, extra: string)

  const SECOND: int := 1_000_000
  const MINUTE: int := 60 * SECOND
  const REDELIVERY_LEASE: int := 20 * SECOND
  const COALESCED: string := "{\"reason\": \"coalesced_duplicate\"}"

  const ALLOWED_COMMANDS: set<string> :=
    {"RUN_BACKUP", "RESTORE_TO_STAGING", "RUN_CANARY", "REFRESH_POLICY", "REPORT_INVENTORY",
     "CANCEL_CURRENT_SAFE_OPERATION", "BROWSE_SNAPSHOT", "BROWSE_LOCAL_DIR", "BUILD_SNAPSHOT_CATALOG", "APPLY_SELECTION"}
  const FORBIDDEN_KINDS: set<string> := {"EXEC", "SHELL", "FORGET", "PRUNE", "UNLOCK", "REPAIR", "KEY"}

  /** Kinds that reuse a pending command only when the payload is the same. */
  predicate KeyedByPayload(kind: string) {
    kind == "BROWSE_SNAPSHOT" || kind == "BROWSE_LOCAL_DIR" || kind == "BUILD_SNAPSHOT_CATALOG"
  }

  predicate Deduplicated(kind: string) {
    kind == "RUN_BACKUP" || KeyedByPayload(kind)
  }

  /** Queued or delivered, and not past its delivery window. */
  predicate Pending(row: Row, now: int) {
    (row.state == Queued || row.state == Delivered) && row.expiresAt > now
  }

  /** Would `enqueue_command` hand this row out instead of creating a new one? */
  predicate Reusable(row: Row, owner: Owner, kind: string, payloadHash: string, now: int) {
    && row.owner == owner
    && row.kind == kind
    && Pending(row, now)
    && (KeyedByPayload(kind) ==> row.payloadHash == payloadHash)
  }

  function NewRow(owner: Owner, kind: string, payloadHash: string, now: int, minutes: int): Row {
    Row(owner, kind, payloadHash, Queued, now, now + minutes * MINUTE, None, None, 0, "")
  }

  /** The lease of an unacknowledged delivery has run out at `now`. */
  predicate Redeliverable(row: Row, now: int) {
    && row.state == Delivered
    && row.ackedAt.None?
    && row.deliveredAt.Some?
    && row.deliveredAt.value < now - REDELIVERY_LEASE
  }

  /** The WHERE clause of the claiming UPDATE; it does not look at the delivery window again. */
  predicate Takeable(row: Row, owner: Owner, now: int) {
    row.owner == owner && (row.state == Queued || Redeliverable(row, now))
  }

  /** The WHERE clause of the SELECT that picks a command. */
  predicate Claimable(row: Row, owner: Owner, now: int) {
    Takeable(row, owner, now) && row.expiresAt > now
  }

  function HandOut(row: Row, now: int): Row {
    row.(state := Delivered, deliveredAt := Some(now), attempts := row.attempts + 1)
  }

  predicate OldestClaimable(rows: Table, id: CommandId, owner: Owner, now: int) {
    && id in rows
    && Claimable(rows[id], owner, now)
    && forall other :: other in rows && Claimable(rows[other], owner, now) ==> rows[id].createdAt <= rows[other].createdAt
  }

  /** An ack may settle a delivered command, even one whose delivery window has passed. */
  predicate Acceptable(row: Row) {
    row.state == Delivered || (row.state == Expired && row.deliveredAt.Some?)
  }

  /** Queued copies of a backup that has just been acknowledged become obsolete. */
  predicate Obsolete(row: Row, settled: Row) {
    settled.kind == "RUN_BACKUP" && row.owner == settled.owner && row.kind == "RUN_BACKUP" && row.state == Queued
  }

  function Settle(rows: Table, ack: Ack, now: int): Table
    requires ack.id in rows
  {
    var target := rows[ack.id];
    map id | id in rows ::
      if id == ack.id then target.(state := Settled(ack.verdict), result := ack.extra, ackedAt := Some(now))
      else if Obsolete(rows[id], target) then rows[id].(state := Settled(Cancelled), result := COALESCED, ackedAt := Some(now))
      else rows[id]
  }

  function ExpireRow(row: Row, now: int): Row {
    if (row.state == Queued || row.state == Delivered) && row.expiresAt < now then row.(state := Expired) else row
  }

  function Expire(rows: Table, now: int): Table {
    map id | id in rows :: ExpireRow(rows[id], now)
  }

  datatype EnqueueReply = Enqueued(id: CommandId) | Reused(id: CommandId) | Refused(status: int)
  datatype AckReply = Accepted(verdict: Verdict) | AlreadySettled(verdict: Verdict) | Rejected(status: int)

  /** The command table and the transactions that change it. */
  class CommandStore {
    var rows: Table

    constructor ()
      ensures rows == map[]
    {
      rows := map[];
    }

    /** `order_by(created_at)` followed by taking the first row. */
    method Oldest(ids: set<CommandId>) returns (first: Option<CommandId>)
      requires ids <= rows.Keys
      ensures first.None? <==> ids == {}
      ensures first.Some? ==> first.value in ids && forall id :: id in ids ==> rows[first.value].createdAt <= rows[id].createdAt
    {
      first := None;
      var rest := ids;
      while rest != {}
        invariant rest <= ids
        invariant first.None? ==> rest == ids
        invariant first.Some? ==> first.value in ids
        invariant first.Some? ==> forall id :: id in ids - rest ==> rows[first.value].createdAt <= rows[id].createdAt
        decreases rest
      {
        var id :| id in rest;
        if first.None? || rows[id].createdAt < rows[first.value].createdAt {
          first := Some(id);
        }
        rest := rest - {id};
      }
    }

    method EnqueueCommand(owner: Owner, kind: string, payloadHash: string, minutes: int, now: int,
                          windowClosed: bool, stagingRejected: bool, newId: CommandId)
      returns (reply: EnqueueReply)
      requires newId !in rows
      modifies this
      ensures reply.Refused? ==> rows == old(rows)
      ensures kind in FORBIDDEN_KINDS || kind !in ALLOWED_COMMANDS ==> reply == Refused(422)
      ensures reply.Reused? ==>
        && rows == old(rows) && Deduplicated(kind)
        && reply.id in rows && Reusable(rows[reply.id], owner, kind, payloadHash, now)
        && forall id :: id in rows && Reusable(rows[id], owner, kind, payloadHash, now) ==> rows[reply.id].createdAt <= rows[id].createdAt
      ensures reply.Enqueued? ==>
        && reply.id == newId
        && rows == old(rows)[newId := NewRow(owner, kind, payloadHash, now, minutes)]
        && (Deduplicated(kind) ==> forall id :: id in old(rows) ==> !Reusable(old(rows)[id], owner, kind, payloadHash, now))
      ensures reply.Refused? <==>
        || kind in FORBIDDEN_KINDS || kind !in ALLOWED_COMMANDS
        || (windowClosed && (kind == "RUN_BACKUP" || kind == "RUN_CANARY"))
        || (stagingRejected && kind == "RESTORE_TO_STAGING")
      ensures reply == Refused(409) <==>
        && kind in ALLOWED_COMMANDS && kind !in FORBIDDEN_KINDS && windowClosed && (kind == "RUN_BACKUP" || kind == "RUN_CANARY")
      // a command handed out again is still to be delivered or acknowledged, for this installation, of this kind
      ensures reply.Reused? ==>
        var row := rows[reply.id];
        && row.owner == owner && row.kind == kind && (row.state == Queued || row.state == Delivered) && row.expiresAt > now
        && (kind != "RUN_BACKUP" ==> row.payloadHash == payloadHash)
      ensures reply.Reused? ==> kind in {"RUN_BACKUP", "BROWSE_SNAPSHOT", "BROWSE_LOCAL_DIR", "BUILD_SNAPSHOT_CATALOG"}
      ensures reply.Enqueued? && kind in {"RUN_BACKUP", "BROWSE_SNAPSHOT", "BROWSE_LOCAL_DIR", "BUILD_SNAPSHOT_CATALOG"} ==>
        forall id :: id in old(rows) && (kind == "RUN_BACKUP" || old(rows)[id].payloadHash == payloadHash) ==>
          var row := old(rows)[id];
          !(row.owner == owner && row.kind == kind && (row.state == Queued || row.state == Delivered) && row.expiresAt > now)
      // a new one is queued for its minutes, never delivered
      ensures reply.Enqueued? ==>
        var row := rows[newId];
        && row.owner == owner && row.kind == kind && row.payloadHash == payloadHash && row.state == Queued && row.createdAt == now
        && row.expiresAt == now + minutes * 60 * SECOND && row.deliveredAt == row.ackedAt == None && row.attempts == 0 && row.result == ""
    {
      if kind in FORBIDDEN_KINDS || kind !in ALLOWED_COMMANDS {
        return Refused(422);
      }
      if (kind == "RUN_BACKUP" || kind == "RUN_CANARY") && windowClosed {
        return Refused(409);
      }
      if Deduplicated(kind) {
        var pending := set id | id in rows && Reusable(rows[id], owner, kind, payloadHash, now);
        var first := Oldest(pending);
        if first.Some? {
          return Reused(first.value);
        }
        assert forall id :: id in rows && Reusable(rows[id], owner, kind, payloadHash, now) ==> id in pending;
      }
      if kind == "RESTORE_TO_STAGING" && stagingRejected {
        return Refused(422);
      }
      rows := rows[newId := NewRow(owner, kind, payloadHash, now, minutes)];
      return Enqueued(newId);
    }

    /** One undisturbed claim: the oldest claimable command is handed out, or there was none. */
    method ClaimCommand(owner: Owner, now: int) returns (claimed: Option<CommandId>)
      modifies this
      ensures claimed.None? ==> rows == old(rows) && forall id :: id in rows ==> !Claimable(rows[id], owner, now)
      ensures claimed.Some? ==> OldestClaimable(old(rows), claimed.value, owner, now)
      ensures claimed.Some? ==> rows == old(rows)[claimed.value := HandOut(old(rows)[claimed.value], now)]
      // handed out is what waits in its window, or was handed out more than 20 s ago and not acknowledged
      ensures claimed.Some? ==>
        var row := old(rows)[claimed.value];
        && row.owner == owner && now < row.expiresAt
        && (row.state == Queued
            || (row.state == Delivered && row.ackedAt.None? && row.deliveredAt.Some? && now - row.deliveredAt.value > 20 * SECOND))
      ensures claimed.Some? ==>
        var row, row' := old(rows)[claimed.value], rows[claimed.value];
        row' == row.(state := Delivered, deliveredAt := Some(now), attempts := row.attempts + 1)
      ensures claimed.None? ==> forall id :: id in rows && rows[id].owner == owner && now < rows[id].expiresAt ==>
        && rows[id].state != Queued
        && (rows[id].state == Delivered && rows[id].ackedAt.None? && rows[id].deliveredAt.Some? ==>
              now - rows[id].deliveredAt.value <= 20 * SECOND)
    {
      var candidates := set id | id in rows && Claimable(rows[id], owner, now);
      claimed := Oldest(candidates);
      if claimed.None? {
        assert forall id :: id in rows && Claimable(rows[id], owner, now) ==> id in candidates;
        return;
      }
      rows := rows[claimed.value := HandOut(rows[claimed.value], now)];
    }

    /** `verdict` is None when the body names no terminal state. */
    method AckCommand(owner: Owner, id: CommandId, verdict: Option<Verdict>, extra: string, now: int)
      returns (reply: AckReply)
      modifies this
      ensures !reply.Accepted? ==> rows == old(rows)
      ensures reply.Accepted? <==>
        id in old(rows) && old(rows)[id].owner == owner && Acceptable(old(rows)[id]) && verdict.Some?
      ensures reply.Accepted? ==>
        verdict == Some(reply.verdict) && rows == Settle(old(rows), Ack(owner, id, reply.verdict, extra), now)
      ensures reply.AlreadySettled? <==>
        id in old(rows) && old(rows)[id].owner == owner && old(rows)[id].state.Settled?
      ensures reply.AlreadySettled? ==> rows[id].state == Settled(reply.verdict)
      ensures reply == Rejected(404) <==> (id !in old(rows) || old(rows)[id].owner != owner)
      ensures reply == Rejected(422) ==> verdict.None? && Acceptable(rows[id])
      ensures reply.Rejected? ==> reply.status == 404 || reply.status == 409 || reply.status == 422
      ensures reply == Rejected(409) <==>
        && id in old(rows) && old(rows)[id].owner == owner && !old(rows)[id].state.Settled?
        && !(old(rows)[id].state == Delivered || (old(rows)[id].state == Expired && old(rows)[id].deliveredAt.Some?))
      // the acknowledged row, and nothing of it but state, result and time
      ensures reply.Accepted? ==>
        && id in rows && rows.Keys == old(rows).Keys
        && rows[id] == old(rows)[id].(state := Settled(verdict.value), result := extra, ackedAt := Some(now))
      // with a backup, exactly the still queued backups of the same installation are cancelled
      ensures reply.Accepted? ==> forall other :: other in rows && other != id ==>
        var row := old(rows)[other];
        if old(rows)[id].kind == row.kind == "RUN_BACKUP" && row.owner == owner && row.state == Queued
        then rows[other] == row.(state := Settled(Cancelled), result := COALESCED, ackedAt := Some(now)) else rows[other] == row
    {
      if id !in rows || rows[id].owner != owner {
        return Rejected(404);
      }
      var cmd := rows[id];
      if cmd.state.Settled? {
        return AlreadySettled(cmd.state.verdict);
      }
      if cmd.state != Delivered && !(cmd.state == Expired && cmd.deliveredAt.Some?) {
        return Rejected(409);
      }
      if verdict.None? {
        return Rejected(422);
      }
      var before := rows;
      rows := rows[id := cmd.(state := Settled(verdict.value), result := extra, ackedAt := Some(now))];
      if cmd.kind == "RUN_BACKUP" {
        rows := map other | other in rows ::
          if other != id && rows[other].owner == owner && rows[other].kind == "RUN_BACKUP" && rows[other].state == Queued
          then rows[other].(state := Settled(Cancelled), ackedAt := Some(now), result := COALESCED)
          else rows[other];
      }
      assert rows == Settle(before, Ack(owner, id, verdict.value, extra), now);
      return Accepted(verdict.value);
    }

    method ExpireCommands(now: int) returns (count: nat)
      modifies this
      ensures rows == Expire(old(rows), now)
      ensures rows.Keys == old(rows).Keys && forall id :: id in rows ==>
        var row := old(rows)[id];
        if (row.state == Queued || row.state == Delivered) && row.expiresAt < now then rows[id] == row.(state := Expired)
        else rows[id] == row
      ensures count == |set id | id in old(rows) && rows[id] != old(rows)[id]|
      ensures forall id :: id in rows ==> (rows[id].state == Queued || rows[id].state == Delivered ==> rows[id].expiresAt >= now)
    {
      var due := set id | id in rows && (rows[id].state == Queued || rows[id].state == Delivered) && rows[id].expiresAt < now;
      var before := rows;
      rows := map id | id in rows :: if id in due then rows[id].(state := Expired) else rows[id];
      assert due == set id | id in before && rows[id] != before[id];
      count := |due|;
    }
  }
}
