/**
 * Role synchronisation between a Discord member's roles and the game server.
 *
 * The bot keeps two tables: `roles`, mapping a game-server role id (`id`) to a
 * Discord role id (`discordId`), and `linked_users`, mapping a Discord member
 * id to a game account id.  `SyncRoles` routes every mapped role into a keep
 * list or a remove list, depending on whether the member holds the Discord
 * role, and sends both lists to the game server; `HandleUnlink` deletes the
 * member's link and asks the server to remove every mapped role.
 *
 * The database and the HTTP client are not modelled: the tables are fields of
 * `BotState`, a failing query is described by a `Fault` parameter, and the
 * outcome of the POST is a `SendOutcome` parameter.
 */
module State {

  datatype Option<T> = None | Some(value: T)

  datatype Result<T, E> = Ok(value: T) | Err(error: E)

  /** A row of the `roles` table: game-server role id and Discord role id. */
  datatype Role = Role(id: string, discordId: int)

  /** A row of the `linked_users` table. */
  datatype LinkedUser = LinkedUser(id: int, gdAccountId: int)

  /** A guild member: its user id and the ids of the Discord roles it holds. */
  datatype Member = Member(id: int, roles: seq<int>)

  /** The body of the POST to `/gsp/sync_roles`. */
  datatype RoleSyncRequestData = RoleSyncRequestData(accountId: int, keep: seq<string>, remove: seq<string>)

  /** The store's errors, reduced to the one the code tells apart. */
  datatype StoreError = RowNotFound | Other(cause: string)

  datatype RoleSyncError =
    | NotLinked
    | Database(dbError: StoreError)
    | ServerRequest(cause: string)
    | InternalError(message: string)   // never produced: serialisation is not modelled
    | ServerUpdate(status: int, message: string)

  /**
   * The queries the bot issues: the link lookup, role fetch and link delete of
   * the entry points, and the insert and delete of the role-table operations.
   */
  datatype Query = LinkLookup | RolesFetch | LinkDelete | RoleInsert | RoleDelete

  /** The store fails at query `at` with an error other than "no row". */
  datatype Fault = Fault(at: Query, cause: string)

  /** What the POST produced: no response at all, or a status and a body (None when reading it failed). */
  datatype SendOutcome = SendFailed(cause: string) | Received(status: int, body: Option<string>)

  const NoMessage: string := "<no message>"

  predicate FailsAt(fault: Option<Fault>, q: Query)
  {
    fault.Some? && fault.value.at == q
  }

  /** The conversion applied by `?` to every store error in the entry points. */
  function FromStoreError(e: StoreError): (r: RoleSyncError)
    ensures r == NotLinked <==> e == RowNotFound
    ensures r != NotLinked ==> r == Database(e)
    ensures r.NotLinked? || r.Database?
  {
    match e
    case RowNotFound => NotLinked
    case Other(_) => Database(e)
  }

  /** A 2xx status. */
  predicate IsSuccess(status: int)
  {
    200 <= status < 300
  }

  /** The classification of the POST's outcome. */
  function Classify(outcome: SendOutcome): (r: Result<(), RoleSyncError>)
    ensures r.Ok? <==> outcome.Received? && IsSuccess(outcome.status)
    ensures outcome.SendFailed? ==> r == Err(ServerRequest(outcome.cause))
    ensures outcome.Received? && !IsSuccess(outcome.status) && outcome.body.Some? ==>
      r == Err(ServerUpdate(outcome.status, outcome.body.value))
    ensures outcome.Received? && !IsSuccess(outcome.status) && outcome.body.None? ==>
      r == Err(ServerUpdate(outcome.status, NoMessage))
  {
    match outcome
    case SendFailed(cause) => Err(ServerRequest(cause))
    case Received(status, body) =>
      if !IsSuccess(status) then
        var message := if body.Some? then body.value else NoMessage;
        Err(ServerUpdate(status, message))
      else
        Ok(())
  }

  /** The base URL with one trailing '/' dropped, if it has one. */
  function TrimTrailingSlash(url: string): (r: string)
    ensures if |url| > 0 && url[|url| - 1] == '/' then r + "/" == url else r == url
  {
    if |url| > 0 && url[|url| - 1] == '/' then url[..|url| - 1] else url
  }

  /** Whether some id among `held` equals `roleId`. */
  function HasRole(held: seq<int>, roleId: int): (r: bool)
    ensures r <==> exists k :: 0 <= k < |held| && held[k] == roleId
  {
    if held == [] then false
    else if held[0] == roleId then true
    else
      var found := HasRole(held[1..], roleId);
      assert found ==> exists k :: 0 <= k < |held| && held[k] == roleId by {
        if found {
          var k :| 0 <= k < |held[1..]| && held[1..][k] == roleId;
          assert held[k + 1] == roleId;
        }
      }
      assert (exists k :: 0 <= k < |held| && held[k] == roleId) ==> found by {
        if exists k :: 0 <= k < |held| && held[k] == roleId {
          var k :| 0 <= k < |held| && held[k] == roleId;
          assert k != 0;
          assert held[1..][k - 1] == roleId;
        }
      }
      found
  }

  /** The rows of `rows` that satisfy `keep`, in table order. */
  function Retain(rows: seq<Role>, keep: Role -> bool): seq<Role>
  {
    if rows == [] then []
    else if keep(rows[0]) then [rows[0]] + Retain(rows[1..], keep)
    else Retain(rows[1..], keep)
  }

  /** The `id` column of `rows`, in table order. */
  function Ids(rows: seq<Role>): seq<string>
  {
    if rows == [] then [] else [rows[0].id] + Ids(rows[1..])
  }

  function HeldBy(held: seq<int>): Role -> bool
  {
    (row: Role) => HasRole(held, row.discordId)
  }

  function NotHeldBy(held: seq<int>): Role -> bool
  {
    (row: Role) => !HasRole(held, row.discordId)
  }

  function DiscordIdIsNot(discordId: int): Role -> bool
  {
    (row: Role) => row.discordId != discordId
  }

  function IdIsNot(id: string): Role -> bool
  {
    (row: Role) => row.id != id
  }

  /** The ids `SyncRoles` puts in the keep list. */
  function KeptIds(rows: seq<Role>, held: seq<int>): seq<string>
  {
    Ids(Retain(rows, HeldBy(held)))
  }

  /** The ids `SyncRoles` puts in the remove list. */
  function RemovedIds(rows: seq<Role>, held: seq<int>): seq<string>
  {
    Ids(Retain(rows, NotHeldBy(held)))
  }

  lemma {:induction false} RetainConcat(a: seq<Role>, b: seq<Role>, keep: Role -> bool)
    ensures Retain(a + b, keep) == Retain(a, keep) + Retain(b, keep)
  {
    if a != [] {
      assert (a + b)[0] == a[0];
      assert (a + b)[1..] == a[1..] + b;
      RetainConcat(a[1..], b, keep);
    } else {
      assert a + b == b;
    }
  }

  lemma {:induction false} IdsConcat(a: seq<Role>, b: seq<Role>)
    ensures Ids(a + b) == Ids(a) + Ids(b)
  {
    if a != [] {
      assert (a + b)[0] == a[0];
      assert (a + b)[1..] == a[1..] + b;
      IdsConcat(a[1..], b);
    } else {
      assert a + b == b;
    }
  }

  lemma {:induction false} IdsShape(rows: seq<Role>)
    ensures |Ids(rows)| == |rows|
    ensures forall k :: 0 <= k < |rows| ==> Ids(rows)[k] == rows[k].id
  {
    if rows != [] {
      IdsShape(rows[1..]);
    }
  }

  /** A row survives exactly when it was in the table and satisfies `keep`. */
  lemma {:induction false} RetainMembers(rows: seq<Role>, keep: Role -> bool)
    ensures |Retain(rows, keep)| <= |rows|
    ensures forall x :: x in Retain(rows, keep) <==> x in rows && keep(x)
  {
    if rows != [] {
      RetainMembers(rows[1..], keep);
      assert rows == [rows[0]] + rows[1..];
    }
  }

  /** When every row satisfies `keep`, nothing is dropped. */
  lemma {:induction false} RetainAll(rows: seq<Role>, keep: Role -> bool)
    requires forall k :: 0 <= k < |rows| ==> keep(rows[k])
    ensures Retain(rows, keep) == rows
  {
    if rows != [] {
      RetainAll(rows[1..], keep);
      assert rows == [rows[0]] + rows[1..];
    }
  }

  /** The keep and remove lists of a table split into two parts are those of the parts, in order. */
  lemma PartitionConcat(a: seq<Role>, b: seq<Role>, held: seq<int>)
    ensures KeptIds(a + b, held) == KeptIds(a, held) + KeptIds(b, held)
    ensures RemovedIds(a + b, held) == RemovedIds(a, held) + RemovedIds(b, held)
  {
    RetainConcat(a, b, HeldBy(held));
    IdsConcat(Retain(a, HeldBy(held)), Retain(b, HeldBy(held)));
    RetainConcat(a, b, NotHeldBy(held));
    IdsConcat(Retain(a, NotHeldBy(held)), Retain(b, NotHeldBy(held)));
  }

  /** One more row of the table goes to exactly one of the two lists. */
  lemma PartitionStep(rows: seq<Role>, held: seq<int>, i: nat)
    requires i < |rows|
    ensures KeptIds(rows[..i + 1], held)
      == KeptIds(rows[..i], held) + (if HasRole(held, rows[i].discordId) then [rows[i].id] else [])
    ensures RemovedIds(rows[..i + 1], held)
      == RemovedIds(rows[..i], held) + (if HasRole(held, rows[i].discordId) then [] else [rows[i].id])
  {
    assert rows[..i + 1] == rows[..i] + [rows[i]];
    PartitionConcat(rows[..i], [rows[i]], held);
    var x := rows[i];
    assert [x][1..] == [];
    assert Retain([x], HeldBy(held)) == if HasRole(held, x.discordId) then [x] else [];
    assert Retain([x], NotHeldBy(held)) == if HasRole(held, x.discordId) then [] else [x];
    assert Ids([x]) == [x.id];
  }

  /** Every row of the table is routed exactly once: the two lists together are its ids. */
  lemma {:induction false} PartitionCovers(rows: seq<Role>, held: seq<int>)
    ensures |KeptIds(rows, held)| + |RemovedIds(rows, held)| == |rows|
    ensures multiset(KeptIds(rows, held)) + multiset(RemovedIds(rows, held)) == multiset(Ids(rows))
  {
    if rows != [] {
      PartitionCovers(rows[1..], held);
      IdsShape(Retain(rows, HeldBy(held)));
      IdsShape(Retain(rows, NotHeldBy(held)));
      IdsShape(Retain(rows[1..], HeldBy(held)));
      IdsShape(Retain(rows[1..], NotHeldBy(held)));
    }
  }

  lemma {:induction false} IdsMembers(rows: seq<Role>, x: string)
    ensures x in Ids(rows) <==> exists k :: 0 <= k < |rows| && rows[k].id == x
  {
    IdsShape(rows);
    if x in Ids(rows) {
      var k :| 0 <= k < |Ids(rows)| && Ids(rows)[k] == x;
      assert rows[k].id == x;
    }
    if exists k :: 0 <= k < |rows| && rows[k].id == x {
      var k :| 0 <= k < |rows| && rows[k].id == x;
      assert Ids(rows)[k] == x;
    }
  }

  /** An id is kept exactly when some row carrying it maps a Discord role the member holds. */
  lemma KeptIff(rows: seq<Role>, held: seq<int>, x: string)
    ensures x in KeptIds(rows, held) <==>
      exists k :: 0 <= k < |rows| && rows[k].id == x && HasRole(held, rows[k].discordId)
  {
    var kept := Retain(rows, HeldBy(held));
    RetainMembers(rows, HeldBy(held));
    IdsMembers(kept, x);
    if x in KeptIds(rows, held) {
      var j :| 0 <= j < |kept| && kept[j].id == x;
      assert kept[j] in rows;
      var k :| 0 <= k < |rows| && rows[k] == kept[j];
      assert rows[k].id == x && HasRole(held, rows[k].discordId);
    }
    if exists k :: 0 <= k < |rows| && rows[k].id == x && HasRole(held, rows[k].discordId) {
      var k :| 0 <= k < |rows| && rows[k].id == x && HasRole(held, rows[k].discordId);
      assert HeldBy(held)(rows[k]);
      assert rows[k] in kept;
      var j :| 0 <= j < |kept| && kept[j] == rows[k];
      assert kept[j].id == x;
    }
  }

  /** An id is removed exactly when some row carrying it maps a Discord role the member lacks. */
  lemma RemovedIff(rows: seq<Role>, held: seq<int>, x: string)
    ensures x in RemovedIds(rows, held) <==>
      exists k :: 0 <= k < |rows| && rows[k].id == x && !HasRole(held, rows[k].discordId)
  {
    var removed := Retain(rows, NotHeldBy(held));
    RetainMembers(rows, NotHeldBy(held));
    IdsMembers(removed, x);
    if x in RemovedIds(rows, held) {
      var j :| 0 <= j < |removed| && removed[j].id == x;
      assert removed[j] in rows;
      var k :| 0 <= k < |rows| && rows[k] == removed[j];
      assert rows[k].id == x && !HasRole(held, rows[k].discordId);
    }
    if exists k :: 0 <= k < |rows| && rows[k].id == x && !HasRole(held, rows[k].discordId) {
      var k :| 0 <= k < |rows| && rows[k].id == x && !HasRole(held, rows[k].discordId);
      assert NotHeldBy(held)(rows[k]);
      assert rows[k] in removed;
      var j :| 0 <= j < |removed| && removed[j] == rows[k];
      assert removed[j].id == x;
    }
  }

  /** With distinct ids in the table, no id is both kept and removed. */
  lemma PartitionDisjoint(rows: seq<Role>, held: seq<int>, x: string)
    requires forall j, k :: 0 <= j < k < |rows| ==> rows[j].id != rows[k].id
    ensures !(x in KeptIds(rows, held) && x in RemovedIds(rows, held))
  {
    KeptIff(rows, held, x);
    RemovedIff(rows, held, x);
  }

  /** The unlink request is the sync request of a member that holds no role. */
  lemma {:induction false} UnlinkIsSyncWithoutRoles(rows: seq<Role>)
    ensures KeptIds(rows, []) == []
    ensures RemovedIds(rows, []) == Ids(rows)
  {
    if rows != [] {
      UnlinkIsSyncWithoutRoles(rows[1..]);
      assert !HeldBy([])(rows[0]) && NotHeldBy([])(rows[0]);
    }
  }

  /** Adding a role row and then removing it by its Discord id restores the table. */
  lemma AddThenRemoveRole(rows: seq<Role>, roleId: int, globedRoleId: string)
    requires forall k :: 0 <= k < |rows| ==> rows[k].discordId != roleId
    ensures Retain(rows + [Role(globedRoleId, roleId)], DiscordIdIsNot(roleId)) == rows
  {
    RetainConcat(rows, [Role(globedRoleId, roleId)], DiscordIdIsNot(roleId));
    RetainAll(rows, DiscordIdIsNot(roleId));
  }

  /** Adding a role row and then removing it by its game-server id restores the table. */
  lemma AddThenRemoveRoleByGlobedId(rows: seq<Role>, roleId: int, globedRoleId: string)
    requires forall k :: 0 <= k < |rows| ==> rows[k].id != globedRoleId
    ensures Retain(rows + [Role(globedRoleId, roleId)], IdIsNot(globedRoleId)) == rows
  {
    RetainConcat(rows, [Role(globedRoleId, roleId)], IdIsNot(globedRoleId));
    RetainAll(rows, IdIsNot(globedRoleId));
  }

  /** The example of a three-row table and a member holding two of the roles. */
  lemma SyncExample()
    ensures var rows := [Role("A", 100), Role("B", 200), Role("C", 300)];
      KeptIds(rows, [100, 300]) == ["A", "C"] && RemovedIds(rows, [100, 300]) == ["B"]
  {
  }

  lemma ClassifyExamples()
    ensures Classify(Received(200, None)) == Ok(())
    ensures Classify(Received(500, Some("boom"))) == Err(ServerUpdate(500, "boom"))
    ensures Classify(Received(404, None)) == Err(ServerUpdate(404, NoMessage))
  {
  }

  lemma TrimExamples()
    ensures TrimTrailingSlash("x//") == "x/"
    ensures TrimTrailingSlash("x/") == "x"
    ensures TrimTrailingSlash("x") == "x"
  {
  }

  class BotState {
    var baseUrl: string
    var roles: seq<Role>
    var linked: map<int, int>

    /** The state over an existing database, with the configured base URL normalised. */
    constructor (storedRoles: seq<Role>, storedLinks: map<int, int>, configuredUrl: string)
      ensures roles == storedRoles && linked == storedLinks
      ensures baseUrl == TrimTrailingSlash(configuredUrl)
    {
      var url := configuredUrl;
      if |url| > 0 && url[|url| - 1] == '/' {
        url := url[..|url| - 1];
      }
      baseUrl := url;
      roles := storedRoles;
      linked := storedLinks;
    }

    /** The `linked_users` row of `memberId`. */
    method FetchLinkedUser(memberId: int, fault: Option<Fault>) returns (r: Result<LinkedUser, StoreError>)
      ensures FailsAt(fault, LinkLookup) ==> r == Err(Other(fault.value.cause))
      ensures !FailsAt(fault, LinkLookup) && memberId !in linked ==> r == Err(RowNotFound)
      ensures !FailsAt(fault, LinkLookup) && memberId in linked ==> r == Ok(LinkedUser(memberId, linked[memberId]))
    {
      if FailsAt(fault, LinkLookup) {
        r := Err(Other(fault.value.cause));
      } else if memberId in linked {
        r := Ok(LinkedUser(memberId, linked[memberId]));
      } else {
        r := Err(RowNotFound);
      }
    }

    method GetAllRoles(fault: Option<Fault>) returns (r: Result<seq<Role>, StoreError>)
      ensures FailsAt(fault, RolesFetch) ==> r == Err(Other(fault.value.cause))
      ensures !FailsAt(fault, RolesFetch) ==> r == Ok(roles)
    {
      if FailsAt(fault, RolesFetch) {
        r := Err(Other(fault.value.cause));
      } else {
        r := Ok(roles);
      }
    }

    /**
     * Builds and sends the member's keep/remove request.  `sent` is the request
     * handed to the HTTP client, None when a store error ended the call first.
     */
    method SyncRoles(member: Member, fault: Option<Fault>, outcome: SendOutcome)
      returns (sent: Option<RoleSyncRequestData>, r: Result<(), RoleSyncError>)
      ensures FailsAt(fault, LinkLookup) ==>
        sent == None && r == Err(Database(Other(fault.value.cause)))
      ensures !FailsAt(fault, LinkLookup) && member.id !in linked ==>
        sent == None && r == Err(NotLinked)
      ensures !FailsAt(fault, LinkLookup) && member.id in linked && FailsAt(fault, RolesFetch) ==>
        sent == None && r == Err(Database(Other(fault.value.cause)))
      ensures !FailsAt(fault, LinkLookup) && member.id in linked && !FailsAt(fault, RolesFetch) ==>
        sent == Some(RoleSyncRequestData(linked[member.id],
                                         KeptIds(roles, member.roles),
                                         RemovedIds(roles, member.roles)))
        && r == Classify(outcome)
    {
      sent := None;
      var lookup := FetchLinkedUser(member.id, fault);
      if lookup.Err? {
        r := Err(FromStoreError(lookup.error));
        return;
      }
      var linkedUser := lookup.value;
      var fetched := GetAllRoles(fault);
      if fetched.Err? {
        r := Err(FromStoreError(fetched.error));
        return;
      }
      var dbRoles := fetched.value;

      var kept: seq<string> := [];
      var removed: seq<string> := [];
      for i := 0 to |dbRoles|
        invariant kept == KeptIds(dbRoles[..i], member.roles)
        invariant removed == RemovedIds(dbRoles[..i], member.roles)
      {
        var role := dbRoles[i];
        PartitionStep(dbRoles, member.roles, i);
        if HasRole(member.roles, role.discordId) {
          kept := kept + [role.id];
        } else {
          removed := removed + [role.id];
        }
      }
      assert dbRoles[..|dbRoles|] == dbRoles;

      var data := RoleSyncRequestData(linkedUser.gdAccountId, kept, removed);
      sent := Some(data);
      r := Classify(outcome);
    }

    /**
     * Deletes the member's link, then asks the server to remove every mapped
     * role.  The link is gone before the request is sent, whatever its outcome.
     */
    method HandleUnlink(member: Member, fault: Option<Fault>, outcome: SendOutcome)
      returns (sent: Option<RoleSyncRequestData>, r: Result<(), RoleSyncError>)
      modifies this`linked
      ensures roles == old(roles) && baseUrl == old(baseUrl)
      ensures FailsAt(fault, LinkLookup) ==>
        sent == None && linked == old(linked) && r == Err(Database(Other(fault.value.cause)))
      ensures !FailsAt(fault, LinkLookup) && member.id !in old(linked) ==>
        sent == None && linked == old(linked) && r == Err(NotLinked)
      ensures !FailsAt(fault, LinkLookup) && member.id in old(linked)
              && (FailsAt(fault, RolesFetch) || FailsAt(fault, LinkDelete)) ==>
        sent == None && linked == old(linked) && r == Err(Database(Other(fault.value.cause)))
      ensures !FailsAt(fault, LinkLookup) && member.id in old(linked)
              && !FailsAt(fault, RolesFetch) && !FailsAt(fault, LinkDelete) ==>
        linked == old(linked) - {member.id}
        && sent == Some(RoleSyncRequestData(old(linked)[member.id], [], Ids(roles)))
        && r == Classify(outcome)
    {
      sent := None;
      var lookup := FetchLinkedUser(member.id, fault);
      if lookup.Err? {
        r := Err(FromStoreError(lookup.error));
        return;
      }
      var linkedUser := lookup.value;
      if FailsAt(fault, RolesFetch) {
        r := Err(FromStoreError(Other(fault.value.cause)));
        return;
      }
      var dbRoles := roles;
      if FailsAt(fault, LinkDelete) {
        r := Err(FromStoreError(Other(fault.value.cause)));
        return;
      }
      linked := linked - {member.id};

      var removed: seq<string> := [];
      for i := 0 to |dbRoles|
        invariant removed == Ids(dbRoles[..i])
        invariant linked == old(linked) - {member.id}
      {
        assert dbRoles[..i + 1] == dbRoles[..i] + [dbRoles[i]];
        IdsConcat(dbRoles[..i], [dbRoles[i]]);
        removed := removed + [dbRoles[i].id];
      }
      assert dbRoles[..|dbRoles|] == dbRoles;

      var data := RoleSyncRequestData(linkedUser.gdAccountId, [], removed);
      sent := Some(data);
      r := Classify(outcome);
    }

    method AddRole(roleId: int, globedRoleId: string, fault: Option<Fault>) returns (r: Result<(), StoreError>)
      modifies this`roles
      ensures FailsAt(fault, RoleInsert) ==> r == Err(Other(fault.value.cause)) && roles == old(roles)
      ensures !FailsAt(fault, RoleInsert) ==> r == Ok(()) && roles == old(roles) + [Role(globedRoleId, roleId)]
    {
      if FailsAt(fault, RoleInsert) {
        r := Err(Other(fault.value.cause));
        return;
      }
      roles := roles + [Role(globedRoleId, roleId)];
      r := Ok(());
    }

    /** Deletes the rows whose Discord id is `roleId`. */
    method RemoveRole(roleId: int, fault: Option<Fault>) returns (r: Result<(), StoreError>)
      modifies this`roles
      ensures FailsAt(fault, RoleDelete) ==> r == Err(Other(fault.value.cause)) && roles == old(roles)
      ensures !FailsAt(fault, RoleDelete) ==> r == Ok(()) && roles == Retain(old(roles), DiscordIdIsNot(roleId))
      ensures !FailsAt(fault, RoleDelete) ==> forall x :: x in roles <==> x in old(roles) && x.discordId != roleId
      ensures !FailsAt(fault, RoleDelete) && (forall k :: 0 <= k < |old(roles)| ==> old(roles)[k].discordId != roleId) ==>
        roles == old(roles)
    {
      if FailsAt(fault, RoleDelete) {
        r := Err(Other(fault.value.cause));
        return;
      }
      RetainMembers(roles, DiscordIdIsNot(roleId));
      if forall k :: 0 <= k < |roles| ==> roles[k].discordId != roleId {
        RetainAll(roles, DiscordIdIsNot(roleId));
      }
      roles := Retain(roles, DiscordIdIsNot(roleId));
      r := Ok(());
    }

    /** Deletes the rows whose game-server id is `role`. */
    method RemoveRoleByGlobedId(role: string, fault: Option<Fault>) returns (r: Result<(), StoreError>)
      modifies this`roles
      ensures FailsAt(fault, RoleDelete) ==> r == Err(Other(fault.value.cause)) && roles == old(roles)
      ensures !FailsAt(fault, RoleDelete) ==> r == Ok(()) && roles == Retain(old(roles), IdIsNot(role))
      ensures !FailsAt(fault, RoleDelete) ==> forall x :: x in roles <==> x in old(roles) && x.id != role
      ensures !FailsAt(fault, RoleDelete) && (forall k :: 0 <= k < |old(roles)| ==> old(roles)[k].id != role) ==>
        roles == old(roles)
    {
      if FailsAt(fault, RoleDelete) {
        r := Err(Other(fault.value.cause));
        return;
      }
      RetainMembers(roles, IdIsNot(role));
      if forall k :: 0 <= k < |roles| ==> roles[k].id != role {
        RetainAll(roles, IdIsNot(role));
      }
      roles := Retain(roles, IdIsNot(role));
      r := Ok(());
    }
  }
}
