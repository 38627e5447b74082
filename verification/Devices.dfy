/**
 The device table: the loops that find a credential, the rotation handlers on top of them, and the
 revalidation of an open stream.
 */
module Devices {
  import opened Model
  import opened Rotation
  import opened Statements

  type DeviceId = string

  predicate Bears(d: Device, credential: Credential) {
    !d.revoked && d.active == credential
  }

  predicate Awaits(d: Device, credential: Credential) {
    !d.revoked && d.pending.Some? && d.pending.value.credential == credential
  }

  /** A replacement is prepared and still may be confirmed. */
  predicate Waits(d: Device, now: int) {
    d.pending.Some? && now < d.pending.value.expiresAt
  }

  predicate Holds(d: Device, credential: Credential) {
    Bears(d, credential) || Awaits(d, credential)
  }

  /** Credentials are random: none serves two devices, nor is active and pending at once. */
  ghost predicate Distinct(rows: map<DeviceId, Device>) {
    && (forall id, c :: id in rows ==> !(Bears(rows[id], c) && Awaits(rows[id], c)))
    && (forall a, b, c :: a in rows && b in rows && Holds(rows[a], c) && Holds(rows[b], c) ==> a == b)
  }

  datatype Match = Matched(id: DeviceId) | MatchedExpired | Unmatched

  datatype Response = Ok | Unauthorized | ExpiredResponse | BadRequest

  /** What the endpoint answers the holder of a bearer: an expired preparation is told before anything else. */
  function ResponseFor(d: Device, credential: Credential, version: nat, now: int): Response {
    if Awaits(d, credential) && !Live(d.pending, now) then ExpiredResponse
    else if version < 2 then BadRequest
    else
      match Confirm(d, credential, version, now)
      case Changed(_) => Ok
      case Confirmed(_) => Ok
      case Refused(reason) => if reason.Elapsed? then ExpiredResponse else Unauthorized
      case NothingPending => Unauthorized
  }

  datatype CloseStatus = KeepOpen | CloseRotated | CloseRevoked

  class DeviceTable {
    var rows: map<DeviceId, Device>

    /** Authenticates a bearer: active credentials of devices that are not revoked, and nothing else. */
    method VerifyDeviceCredential(credential: Credential) returns (id: Option<DeviceId>)
      ensures id.Some? ==> id.value in rows && Bears(rows[id.value], credential)
      ensures id.None? ==> forall other :: other in rows ==> !Bears(rows[other], credential)
    {
      var unrevoked := set other <- rows | !rows[other].revoked;
      var ids := Listing(unrevoked);
      assert forall j :: 0 <= j < |ids| ==> ids[j] in unrevoked;
      for i := 0 to |ids|
        invariant forall j :: 0 <= j < i ==> rows[ids[j]].active != credential
      {
        if rows[ids[i]].active == credential {
          return Some(ids[i]);
        }
      }
      assert forall other :: other in rows && Bears(rows[other], credential) ==> other in unrevoked;
      id := None;
    }

    /** Finds a prepared credential; one that expired is told apart from one that is unknown. */
    method VerifyPendingDeviceCredential(credential: Credential, now: int) returns (found: Match)
      ensures found.Matched? ==>
                found.id in rows && Awaits(rows[found.id], credential) && Live(rows[found.id].pending, now)
      ensures !found.Matched? ==>
                forall other :: other in rows && Awaits(rows[other], credential) ==> !Live(rows[other].pending, now)
      ensures found.MatchedExpired? ==> exists other :: other in rows && Awaits(rows[other], credential)
      ensures found.Unmatched? ==> forall other :: other in rows ==> !Awaits(rows[other], credential)
    {
      var waiting := set other <- rows | !rows[other].revoked && rows[other].pending.Some?;
      var ids := Listing(waiting);
      assert forall j :: 0 <= j < |ids| ==> ids[j] in waiting;
      var expired := false;
      for i := 0 to |ids|
        invariant forall j :: 0 <= j < i && Awaits(rows[ids[j]], credential) ==> !Live(rows[ids[j]].pending, now)
        invariant expired <==> exists j :: 0 <= j < i && Awaits(rows[ids[j]], credential)
      {
        if rows[ids[i]].pending.value.credential == credential {
          if rows[ids[i]].pending.value.expiresAt > now {
            return Matched(ids[i]);
          }
          expired := true;
        }
      }
      assert forall other :: other in rows && Awaits(rows[other], credential) ==> other in waiting;
      if expired {
        var j :| 0 <= j < |ids| && Awaits(rows[ids[j]], credential);
        found := MatchedExpired;
      } else {
        found := Unmatched;
      }
    }

    /** Prepares a replacement for one device; no other row changes, and the active credential stays valid. */
    method PrepareDeviceCredentialRotation(id: DeviceId, current: Credential, replacement: Credential, now: int)
      returns (prepared: Option<Slot>)
      requires Distinct(rows) && forall other :: other in rows ==> !Holds(rows[other], replacement)
      modifies this
      ensures prepared.Some? <==>
                && id in old(rows) && Bears(old(rows)[id], current) && current != replacement
                && 1 <= old(rows)[id].version != 0x7fff_ffff_ffff_ffff && !Waits(old(rows)[id], now)
      ensures prepared.Some? ==> prepared.value == Slot(replacement, old(rows)[id].version + 1, now + 300)
      ensures rows == if prepared.Some? then old(rows)[id := old(rows)[id].(pending := prepared)] else old(rows)
      ensures id in old(rows) ==> rows == old(rows)[id := Prepare(old(rows)[id], current, replacement, now).Over(old(rows)[id])]
      ensures Distinct(rows)
    {
      if current == replacement || id !in rows || rows[id].revoked || rows[id].active != current {
        assert id in rows ==> rows == rows[id := rows[id]];
        return None;
      }
      var row := rows[id];
      if row.version < 1 || row.version == MAX_VERSION || (row.pending.Some? && row.pending.value.expiresAt > now) {
        assert rows == rows[id := rows[id]];
        return None;
      }
      prepared := Some(Slot(replacement, row.version + 1, now + ROTATION_TTL));
      ReplacementStaysDistinct(rows, id, prepared.value);
      rows := rows[id := row.(pending := prepared)];
    }

    /** Clears a pending replacement while the original credential is still active. */
    method CancelDeviceCredentialRotation(id: DeviceId, current: Credential) returns (cancelled: bool)
      requires Distinct(rows)
      modifies this
      ensures cancelled <==> id in old(rows) && Bears(old(rows)[id], current) && old(rows)[id].pending.Some?
      ensures id in old(rows) ==> (cancelled <==> Cancel(old(rows)[id], current).Changed?)
      ensures rows == if cancelled then old(rows)[id := old(rows)[id].(pending := None)] else old(rows)
      ensures Distinct(rows)
    {
      cancelled := id in rows && Bears(rows[id], current) && rows[id].pending.Some?;
      if cancelled {
        StaysDistinct(rows, id, rows[id].(pending := None));
        rows := rows[id := rows[id].(pending := None)];
      }
    }

    method RevokeDevice(id: DeviceId) returns (revoked: bool)
      requires Distinct(rows)
      modifies this
      ensures revoked <==> id in old(rows) && !old(rows)[id].revoked
      ensures rows == if revoked then old(rows)[id := old(rows)[id].(revoked := true)] else old(rows)
      ensures Distinct(rows)
    {
      revoked := id in rows && !rows[id].revoked;
      if revoked {
        StaysDistinct(rows, id, rows[id].(revoked := true));
        rows := rows[id := rows[id].(revoked := true)];
      }
    }

    /** The confirm endpoint: the one place where a pending bearer is accepted. */
    method HandleConfirm(credential: Credential, version: nat, now: int) returns (response: Response, promoted: bool)
      requires Distinct(rows)
      modifies this
      ensures forall id :: id in old(rows) && Holds(old(rows)[id], credential) ==>
                && rows == old(rows)[id := Confirm(old(rows)[id], credential, version, now).Over(old(rows)[id])]
                && (promoted <==> Confirm(old(rows)[id], credential, version, now).Changed?)
                && response == ResponseFor(old(rows)[id], credential, version, now)
      ensures forall id :: id in old(rows) && Awaits(old(rows)[id], credential) ==>
                && (promoted <==> Waits(old(rows)[id], now) && version >= 2 && old(rows)[id].pending.value.version == version)
                && (promoted ==> rows == old(rows)[id := Device(credential, version, None, false)])
                && (!promoted ==> rows == old(rows))
                && (response.ExpiredResponse? <==> !Waits(old(rows)[id], now))
                && (response.BadRequest? <==> Waits(old(rows)[id], now) && version < 2)
                && (response.Ok? <==> promoted)
      ensures forall id :: id in old(rows) && Bears(old(rows)[id], credential) ==>
                && rows == old(rows) && !promoted
                && response == if version < 2 then BadRequest else if old(rows)[id].version == version then Ok else Unauthorized
      ensures (forall id :: id in old(rows) ==> !Holds(old(rows)[id], credential)) ==>
                response == Unauthorized && rows == old(rows) && !promoted
      ensures Distinct(rows)
    {
      promoted := false;
      var found := VerifyPendingDeviceCredential(credential, now);
      var id;
      match found {
        case MatchedExpired =>
          ExpiredChangesNothing(rows, credential, version, now);
          return ExpiredResponse, false;
        case Unmatched =>
          var active := VerifyDeviceCredential(credential);
          if active.None? {
            return Unauthorized, false;
          }
          id := active.value;
        case Matched(pendingId) =>
          id := pendingId;
      }
      OneHolder(rows, credential, id);
      if version < 2 {
        assert rows == rows[id := rows[id]];
        return BadRequest, false;
      }
      var reply := Confirm(rows[id], credential, version, now);
      StaysDistinct(rows, id, reply.Over(rows[id]));
      rows := rows[id := reply.Over(rows[id])];
      promoted := reply.Changed?;
      response := if reply.Changed? || reply.Confirmed? then Ok
                  else if reply == Refused(Elapsed) then ExpiredResponse else Unauthorized;
    }

    /** Code 4004 says exactly that the identity stands and this bearer was superseded; 4003 that it is gone. */
    method CredentialCloseStatus(id: DeviceId, token: Credential) returns (status: CloseStatus)
      requires Distinct(rows)
      ensures status.KeepOpen? <==> id in rows && Bears(rows[id], token)
      ensures status.CloseRotated? <==> id in rows && !rows[id].revoked && rows[id].active != token
      ensures status.CloseRevoked? <==> id !in rows || rows[id].revoked
    {
      var principal := VerifyDeviceCredential(token);
      if principal == Some(id) {
        return KeepOpen;
      }
      if principal.Some? {
        assert Holds(rows[principal.value], token);
        OneHolder(rows, token, principal.value);
      }
      return if id in rows && !rows[id].revoked then CloseRotated else CloseRevoked;
    }
  }

  /** A row that holds no credential it did not hold keeps the table distinct. */
  lemma StaysDistinct(rows: map<DeviceId, Device>, id: DeviceId, row: Device)
    requires Distinct(rows) && id in rows
    requires forall c :: Holds(row, c) ==> Holds(rows[id], c)
    requires forall c :: !(Bears(row, c) && Awaits(row, c))
    ensures Distinct(rows[id := row])
  {}

  lemma ReplacementStaysDistinct(rows: map<DeviceId, Device>, id: DeviceId, slot: Slot)
    requires Distinct(rows) && id in rows && forall other :: other in rows ==> !Holds(rows[other], slot.credential)
    ensures Distinct(rows[id := rows[id].(pending := Some(slot))])
  {
    var row := rows[id].(pending := Some(slot));
    forall c | Holds(row, c) ensures c == slot.credential || Holds(rows[id], c) {}
  }

  lemma OneHolder(rows: map<DeviceId, Device>, credential: Credential, id: DeviceId)
    requires Distinct(rows) && id in rows && Holds(rows[id], credential)
    ensures forall other :: other in rows && Holds(rows[other], credential) ==> other == id
  {}

  lemma ExpiredChangesNothing(rows: map<DeviceId, Device>, credential: Credential, version: nat, now: int)
    requires Distinct(rows) && exists other :: other in rows && Awaits(rows[other], credential)
    requires forall other :: other in rows && Awaits(rows[other], credential) ==> !Live(rows[other].pending, now)
    ensures forall id :: id in rows && Holds(rows[id], credential) ==>
              rows == rows[id := rows[id]] && Awaits(rows[id], credential)
  {}
}
