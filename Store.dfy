/**
 * The tenant store (ApplicationDbContext): its tables, the model rules that the
 * database enforces (unique indexes, column lengths, foreign keys and their
 * delete behaviour), the change tracker, and SaveChanges, which stamps the
 * audit timestamps on tracked entries before the database commits them.
 */
module Store {
  import opened Wrappers
  import opened Entities

  /** The rows of every table, keyed by id, and the next value of each identity column. */
  datatype Tables = Tables(
    companies: map<int, Company>,
    users: map<int, User>,
    projects: map<int, Project>,
    documents: map<int, Document>,
    projectPermissions: map<int, ProjectPermission>,
    auditLogs: map<int, AuditLog>,
    nextCompanyId: int,
    nextUserId: int)

  /** Why the database refused a SaveChanges. */
  datatype DbError =
    | DbUpdate             // a unique index, a column length or a foreign key was violated
    | DbUpdateConcurrency  // a Modified or Deleted row no longer exists

  // ----- The model rules of OnModelCreating -----

  /** Every row sits under its own id; identity columns start at 1 and run ahead of the rows. */
  predicate KeysMatch(t: Tables)
  {
    && 0 < t.nextCompanyId && 0 < t.nextUserId
    && (forall id :: id in t.companies ==> t.companies[id].id == id && 0 < id < t.nextCompanyId)
    && (forall id :: id in t.users ==> t.users[id].id == id && 0 < id < t.nextUserId)
    && (forall id :: id in t.projects ==> t.projects[id].id == id)
    && (forall id :: id in t.documents ==> t.documents[id].id == id)
    && (forall id :: id in t.projectPermissions ==> t.projectPermissions[id].id == id)
    && (forall id :: id in t.auditLogs ==> t.auditLogs[id].id == id)
  }

  /** The unique index on Company.Email. */
  predicate CompanyEmailUnique(companies: map<int, Company>)
  {
    forall a, b :: a in companies && b in companies && companies[a].email == companies[b].email ==> a == b
  }

  /** The unique index on (User.CompanyId, User.Email): unique within a company only. */
  predicate UserEmailUniquePerCompany(users: map<int, User>)
  {
    forall a, b ::
      a in users && b in users && users[a].companyId == users[b].companyId && users[a].email == users[b].email
      ==> a == b
  }

  /** The unique index on (ProjectPermission.ProjectId, ProjectPermission.UserId). */
  predicate PermissionPairUnique(perms: map<int, ProjectPermission>)
  {
    forall a, b ::
      a in perms && b in perms && perms[a].projectId == perms[b].projectId && perms[a].userId == perms[b].userId
      ==> a == b
  }

  /** The column lengths of a company row. */
  predicate CompanyFits(c: Company)
  {
    |c.name| <= 200 && |c.email| <= 200 && |c.phone| <= 50 && |c.address| <= 500
  }

  /** The column lengths of a user row. */
  predicate UserFits(u: User)
  {
    |u.firstName| <= 100 && |u.lastName| <= 100 && |u.email| <= 200
  }

  predicate RowsFit(t: Tables)
  {
    && (forall id :: id in t.companies ==> CompanyFits(t.companies[id]))
    && (forall id :: id in t.users ==> UserFits(t.users[id]))
  }

  /** Every foreign key names an existing row. */
  predicate ReferencesResolve(t: Tables)
  {
    && (forall id :: id in t.users ==> t.users[id].companyId in t.companies)
    && (forall id :: id in t.projects ==> t.projects[id].companyId in t.companies)
    && (forall id :: id in t.documents ==>
          && t.documents[id].projectId in t.projects
          && t.documents[id].uploadedByUserId in t.users
          && (t.documents[id].parentDocumentId.Some? ==> t.documents[id].parentDocumentId.value in t.documents))
    && (forall id :: id in t.projectPermissions ==>
          t.projectPermissions[id].projectId in t.projects && t.projectPermissions[id].userId in t.users)
    && (forall id :: id in t.auditLogs ==> t.auditLogs[id].userId in t.users)
  }

  /** Everything the database enforces on a committed state. */
  predicate Consistent(t: Tables)
  {
    && KeysMatch(t)
    && CompanyEmailUnique(t.companies)
    && UserEmailUniquePerCompany(t.users)
    && PermissionPairUnique(t.projectPermissions)
    && RowsFit(t)
    && ReferencesResolve(t)
  }

  function EmptyTables(): (t: Tables)
    ensures Consistent(t)
  {
    Tables(map[], map[], map[], map[], map[], map[], 1, 1)
  }

  predicate CompanyEmailTaken(t: Tables, email: string)
  {
    exists id :: id in t.companies && t.companies[id].email == email
  }

  /** Some user of ANY company has this email. */
  predicate UserEmailTaken(t: Tables, email: string)
  {
    exists id :: id in t.users && t.users[id].email == email
  }

  // ----- Writes the database performs -----

  /** Inserting a company row; the identity column gives its id. */
  function InsertCompany(t: Tables, c: Company): Tables
  {
    t.(companies := t.companies[t.nextCompanyId := c.(id := t.nextCompanyId)], nextCompanyId := t.nextCompanyId + 1)
  }

  /** Inserting a user row; the identity column gives its id. */
  function InsertUser(t: Tables, u: User): Tables
  {
    t.(users := t.users[t.nextUserId := u.(id := t.nextUserId)], nextUserId := t.nextUserId + 1)
  }

  /** Deleting a company. Users and projects reference it with Restrict: they stay, and the foreign key check refuses. */
  function RemoveCompany(t: Tables, id: int): Tables
  {
    t.(companies := t.companies - {id})
  }

  /** Deleting a user cascades to its project permissions; documents and audit logs reference it with Restrict. */
  function RemoveUser(t: Tables, id: int): Tables
  {
    t.(users := t.users - {id},
       projectPermissions := map k | k in t.projectPermissions && t.projectPermissions[k].userId != id :: t.projectPermissions[k])
  }

  /** Deleting a project cascades to its documents and its permissions. */
  function RemoveProject(t: Tables, id: int): Tables
  {
    t.(projects := t.projects - {id},
       documents := map k | k in t.documents && t.documents[k].projectId != id :: t.documents[k],
       projectPermissions := map k | k in t.projectPermissions && t.projectPermissions[k].projectId != id :: t.projectPermissions[k])
  }

  /** Deleting a document. Its versions reference it with Restrict. */
  function RemoveDocument(t: Tables, id: int): Tables
  {
    t.(documents := t.documents - {id})
  }

  // ----- The change tracker -----

  datatype EntityState = Detached | Unchanged | Deleted | Modified | Added

  /** A tracked entity of the core: a company or a user. */
  datatype Row = CompanyRow(company: Company) | UserRow(user: User)

  datatype Entry = Entry(state: EntityState, row: Row)

  function WithCreatedAt(row: Row, now: Time): Row
  {
    match row
    case CompanyRow(c) => CompanyRow(c.(createdAt := now))
    case UserRow(u) => UserRow(u.(createdAt := now))
  }

  function WithUpdatedAt(row: Row, now: Time): Row
  {
    match row
    case CompanyRow(c) => CompanyRow(c.(updatedAt := Some(now)))
    case UserRow(u) => UserRow(u.(updatedAt := Some(now)))
  }

  /** What the SaveChanges override does to one entry. */
  function Stamp(e: Entry, now: Time): Entry
  {
    match e.state
    case Added => e.(row := WithCreatedAt(e.row, now))
    case Modified => e.(row := WithUpdatedAt(e.row, now))
    case _ => e
  }

  /**
   * Stamping every tracked entry: no entry is gained, lost or moved, every
   * state is kept, and only timestamps change.
   */
  function StampAll(es: seq<Entry>, now: Time): (r: seq<Entry>)
    ensures |r| == |es|
    ensures forall k :: 0 <= k < |es| ==> r[k].state == es[k].state && Untimed(r[k].row) == Untimed(es[k].row)
    ensures forall k :: 0 <= k < |es| && es[k].state != Added && es[k].state != Modified ==> r[k] == es[k]
  {
    seq(|es|, k requires 0 <= k < |es| => Stamp(es[k], now))
  }

  /** The base entity fields of a row, as (CreatedAt, UpdatedAt). */
  function Timestamps(row: Row): (Time, Option<Time>)
  {
    match row
    case CompanyRow(c) => (c.createdAt, c.updatedAt)
    case UserRow(u) => (u.createdAt, u.updatedAt)
  }

  /** A row with its base entity timestamps blanked, to compare everything else. */
  function Untimed(row: Row): Row
  {
    WithUpdatedAt(WithCreatedAt(row, 0), 0)
  }

  /**
   * Stamping keeps every entry's state and every field other than the
   * timestamps. An Added entry gets CreatedAt = now, whatever the caller set;
   * a Modified entry gets UpdatedAt = now and keeps CreatedAt; an entry in
   * any other state is left exactly as it was.
   */
  lemma StampEffect(e: Entry, now: Time)
    ensures Stamp(e, now).state == e.state
    ensures Untimed(Stamp(e, now).row) == Untimed(e.row)
    ensures e.state == Added ==> Timestamps(Stamp(e, now).row) == (now, Timestamps(e.row).1)
    ensures e.state == Modified ==> Timestamps(Stamp(e, now).row) == (Timestamps(e.row).0, Some(now))
    ensures e.state != Added && e.state != Modified ==> Stamp(e, now) == e
  {
  }

  /** How many entries a SaveChanges writes: those Added, Modified or Deleted. */
  function Written(es: seq<Entry>): (n: nat)
    ensures n <= |es|
    ensures n == 0 <==> forall k :: 0 <= k < |es| ==> es[k].state !in {Added, Modified, Deleted}
  {
    if es == [] then 0
    else (if es[0].state in {Added, Modified, Deleted} then 1 else 0) + Written(es[1..])
  }

  /**
   * The database's write of one entry: the new table contents and what the
   * tracker holds for the entry afterwards (nothing, for a deleted entity).
   * What stays tracked is Unchanged; the identity columns never go back; only
   * a Modified or Deleted entry whose row is gone fails, as a concurrency
   * conflict; an Unchanged entry writes nothing.
   */
  function ApplyEntry(t: Tables, e: Entry): (r: Result<(Tables, seq<Entry>), DbError>)
    ensures r.Success? ==> |r.value.1| <= 1 && forall k :: 0 <= k < |r.value.1| ==> r.value.1[k].state == Unchanged
    ensures r.Success? ==> t.nextCompanyId <= r.value.0.nextCompanyId && t.nextUserId <= r.value.0.nextUserId
    ensures r.Failure? ==> r.error == DbUpdateConcurrency && e.state in {Modified, Deleted}
    ensures e.state == Unchanged ==> r == Success((t, [e]))
  {
    match e.state
    case Added =>
      (match e.row
       case CompanyRow(c) => Success((InsertCompany(t, c), [Entry(Unchanged, CompanyRow(c.(id := t.nextCompanyId)))]))
       case UserRow(u) => Success((InsertUser(t, u), [Entry(Unchanged, UserRow(u.(id := t.nextUserId)))])))
    case Modified =>
      (match e.row
       case CompanyRow(c) =>
         if c.id in t.companies then Success((t.(companies := t.companies[c.id := c]), [e.(state := Unchanged)]))
         else Failure(DbUpdateConcurrency)
       case UserRow(u) =>
         if u.id in t.users then Success((t.(users := t.users[u.id := u]), [e.(state := Unchanged)]))
         else Failure(DbUpdateConcurrency))
    case Deleted =>
      (match e.row
       case CompanyRow(c) => if c.id in t.companies then Success((RemoveCompany(t, c.id), [])) else Failure(DbUpdateConcurrency)
       case UserRow(u) => if u.id in t.users then Success((RemoveUser(t, u.id), [])) else Failure(DbUpdateConcurrency))
    case Unchanged => Success((t, [e]))
    case Detached => Success((t, []))
  }

  /**
   * The database's write of all tracked entries, in order. After it every
   * entry left in the tracker is Unchanged, no entry was gained, and the
   * identity columns never went back.
   */
  function Commit(t: Tables, es: seq<Entry>): (r: Result<(Tables, seq<Entry>), DbError>)
    ensures r.Success? ==> |r.value.1| <= |es|
    ensures r.Success? ==> forall k :: 0 <= k < |r.value.1| ==> r.value.1[k].state == Unchanged
    ensures r.Success? ==> t.nextCompanyId <= r.value.0.nextCompanyId && t.nextUserId <= r.value.0.nextUserId
    decreases |es|
  {
    if es == [] then Success((t, []))
    else
      match ApplyEntry(t, es[0])
      case Failure(err) => Failure(err)
      case Success((t1, kept)) =>
        match Commit(t1, es[1..])
        case Failure(err) => Failure(err)
        case Success((t2, rest)) => Success((t2, kept + rest))
  }

  /** A commit of entries that are all Unchanged writes nothing and keeps the tracker as it is. */
  lemma {:induction false} CommitUnchanged(t: Tables, es: seq<Entry>)
    requires forall k :: 0 <= k < |es| ==> es[k].state == Unchanged
    ensures Commit(t, es) == Success((t, es))
  {
    if es != [] {
      CommitUnchanged(t, es[1..]);
      assert [es[0]] + es[1..] == es;
    }
  }

  /** A commit of one entry is that entry's write. */
  lemma CommitOne(t: Tables, e: Entry)
    ensures Commit(t, [e]) == ApplyEntry(t, e)
  {
    assert [e][1..] == [];
    match ApplyEntry(t, e)
    case Failure(_) =>
    case Success((t1, kept)) => assert kept + [] == kept;
  }

  /** A commit of an Unchanged entry followed by another is the second entry's write. */
  lemma CommitAfterUnchanged(t: Tables, first: Entry, second: Entry)
    requires first.state == Unchanged
    ensures Commit(t, [first, second]) ==
              match ApplyEntry(t, second)
              case Success((t2, kept)) => Success((t2, [first] + kept))
              case Failure(err) => Failure(err)
  {
    assert [first, second][1..] == [second];
    CommitOne(t, second);
  }

  /** A commit of an entry followed by an Unchanged one is the first entry's write. */
  lemma CommitBeforeUnchanged(t: Tables, first: Entry, second: Entry)
    requires second.state == Unchanged
    ensures Commit(t, [first, second]) ==
              match ApplyEntry(t, first)
              case Success((t1, kept)) => Success((t1, kept + [second]))
              case Failure(err) => Failure(err)
  {
    assert [first, second][1..] == [second];
    match ApplyEntry(t, first)
    case Failure(_) =>
    case Success((t1, kept)) => CommitOne(t1, second);
  }

  // ----- The delete behaviours of OnModelCreating -----

  /** Company -> Users and Company -> Projects are Restrict: a company with either cannot be deleted. */
  lemma DeleteCompanyRestricted(t: Tables, id: int)
    requires Consistent(t) && id in t.companies
    ensures Consistent(RemoveCompany(t, id)) <==>
              (forall u :: u in t.users ==> t.users[u].companyId != id)
              && (forall p :: p in t.projects ==> t.projects[p].companyId != id)
  {
    var r := RemoveCompany(t, id);
    if !Consistent(r) {
      if forall u :: u in t.users ==> t.users[u].companyId != id {
        if forall p :: p in t.projects ==> t.projects[p].companyId != id {
          assert ReferencesResolve(r);
          assert false;
        }
      }
    }
  }

  /**
   * User -> ProjectPermissions is Cascade, User -> Documents and User -> AuditLogs
   * are Restrict: deleting a user takes its permissions with it, and is refused
   * while it uploaded a document or has an audit entry.
   */
  lemma DeleteUserCascades(t: Tables, id: int)
    requires Consistent(t) && id in t.users
    ensures forall k :: k in RemoveUser(t, id).projectPermissions ==> RemoveUser(t, id).projectPermissions[k].userId != id
    ensures Consistent(RemoveUser(t, id)) <==>
              (forall d :: d in t.documents ==> t.documents[d].uploadedByUserId != id)
              && (forall a :: a in t.auditLogs ==> t.auditLogs[a].userId != id)
  {
    var r := RemoveUser(t, id);
    if (forall d :: d in t.documents ==> t.documents[d].uploadedByUserId != id)
       && (forall a :: a in t.auditLogs ==> t.auditLogs[a].userId != id) {
      assert KeysMatch(r);
      assert PermissionPairUnique(r.projectPermissions);
      assert ReferencesResolve(r);
    }
  }

  /**
   * Project -> Documents and Project -> ProjectPermissions are Cascade; a
   * document's parent is Restrict. Deleting a project removes its documents
   * and permissions, and is refused only when a document of another project
   * is a version of one of its documents.
   */
  lemma DeleteProjectCascades(t: Tables, id: int)
    requires Consistent(t) && id in t.projects
    ensures forall k :: k in RemoveProject(t, id).documents ==> RemoveProject(t, id).documents[k].projectId != id
    ensures forall k :: k in RemoveProject(t, id).projectPermissions ==> RemoveProject(t, id).projectPermissions[k].projectId != id
    ensures Consistent(RemoveProject(t, id)) <==>
              forall d :: d in t.documents && t.documents[d].projectId != id && t.documents[d].parentDocumentId.Some? ==>
                t.documents[t.documents[d].parentDocumentId.value].projectId != id
  {
    var r := RemoveProject(t, id);
    if forall d :: d in t.documents && t.documents[d].projectId != id && t.documents[d].parentDocumentId.Some? ==>
                t.documents[t.documents[d].parentDocumentId.value].projectId != id {
      assert KeysMatch(r);
      assert PermissionPairUnique(r.projectPermissions);
      assert ReferencesResolve(r);
    } else {
      var d :| d in t.documents && t.documents[d].projectId != id && t.documents[d].parentDocumentId.Some? &&
                t.documents[t.documents[d].parentDocumentId.value].projectId == id;
      assert d in r.documents && t.documents[d].parentDocumentId.value !in r.documents;
    }
  }

  /** Document -> Versions is Restrict: a document that has versions cannot be deleted. */
  lemma DeleteDocumentRestricted(t: Tables, id: int)
    requires Consistent(t) && id in t.documents
    ensures Consistent(RemoveDocument(t, id)) <==>
              forall d :: d in t.documents && d != id ==> t.documents[d].parentDocumentId != Some(id)
  {
    var r := RemoveDocument(t, id);
    if forall d :: d in t.documents && d != id ==> t.documents[d].parentDocumentId != Some(id) {
      assert ReferencesResolve(r);
    } else {
      var d :| d in t.documents && d != id && t.documents[d].parentDocumentId == Some(id);
      assert d in r.documents;
    }
  }

  // ----- What the unique indexes admit -----

  lemma FreshIds(t: Tables)
    requires KeysMatch(t)
    ensures t.nextCompanyId !in t.companies && t.nextUserId !in t.users
  {
  }

  /**
   * An insert under the identity value gains exactly one row, the given one
   * under its new id; every old row and every other table stay as they were.
   */
  lemma InsertCompanyKeepsRows(t: Tables, c: Company)
    requires KeysMatch(t)
    ensures InsertCompany(t, c).companies.Keys == t.companies.Keys + {t.nextCompanyId}
    ensures |InsertCompany(t, c).companies| == |t.companies| + 1
    ensures forall k :: k in t.companies ==> InsertCompany(t, c).companies[k] == t.companies[k]
    ensures InsertCompany(t, c).companies[t.nextCompanyId] == c.(id := t.nextCompanyId)
    ensures InsertCompany(t, c).users == t.users && InsertCompany(t, c).projects == t.projects
    ensures InsertCompany(t, c).documents == t.documents && InsertCompany(t, c).projectPermissions == t.projectPermissions
    ensures InsertCompany(t, c).auditLogs == t.auditLogs && InsertCompany(t, c).nextUserId == t.nextUserId
  {
    FreshIds(t);
  }

  lemma InsertUserKeepsRows(t: Tables, u: User)
    requires KeysMatch(t)
    ensures InsertUser(t, u).users.Keys == t.users.Keys + {t.nextUserId}
    ensures |InsertUser(t, u).users| == |t.users| + 1
    ensures forall k :: k in t.users ==> InsertUser(t, u).users[k] == t.users[k]
    ensures InsertUser(t, u).users[t.nextUserId] == u.(id := t.nextUserId)
    ensures InsertUser(t, u).companies == t.companies && InsertUser(t, u).projects == t.projects
    ensures InsertUser(t, u).documents == t.documents && InsertUser(t, u).projectPermissions == t.projectPermissions
    ensures InsertUser(t, u).auditLogs == t.auditLogs && InsertUser(t, u).nextCompanyId == t.nextCompanyId
  {
    FreshIds(t);
  }

  /** A new company row is stored exactly when its columns fit and no company has its email. */
  lemma InsertCompanyAccepted(t: Tables, c: Company)
    requires Consistent(t)
    ensures Consistent(InsertCompany(t, c)) <==> CompanyFits(c) && !CompanyEmailTaken(t, c.email)
  {
    var r := InsertCompany(t, c);
    var n := t.nextCompanyId;
    FreshIds(t);
    if CompanyFits(c) && !CompanyEmailTaken(t, c.email) {
      assert KeysMatch(r);
      assert CompanyEmailUnique(r.companies);
      assert RowsFit(r);
      assert ReferencesResolve(r);
    } else if CompanyEmailTaken(t, c.email) {
      var k :| k in t.companies && t.companies[k].email == c.email;
      assert r.companies[k].email == r.companies[n].email && k != n;
    } else {
      assert !CompanyFits(r.companies[n]);
    }
  }

  /**
   * A new user row is stored exactly when its columns fit, its company exists,
   * and no user OF THAT COMPANY has its email.
   */
  lemma InsertUserAccepted(t: Tables, u: User)
    requires Consistent(t)
    ensures Consistent(InsertUser(t, u)) <==>
              UserFits(u) && u.companyId in t.companies
              && forall k :: k in t.users && t.users[k].companyId == u.companyId ==> t.users[k].email != u.email
  {
    var r := InsertUser(t, u);
    var n := t.nextUserId;
    FreshIds(t);
    if UserFits(u) && u.companyId in t.companies
       && forall k :: k in t.users && t.users[k].companyId == u.companyId ==> t.users[k].email != u.email {
      assert KeysMatch(r);
      assert UserEmailUniquePerCompany(r.users);
      assert RowsFit(r);
      assert ReferencesResolve(r);
    } else if !UserFits(u) {
      assert !UserFits(r.users[n]);
    } else if u.companyId !in t.companies {
      assert r.users[n].companyId !in r.companies;
    } else {
      var k :| k in t.users && t.users[k].companyId == u.companyId && t.users[k].email == u.email;
      assert k != n && r.users[k].email == r.users[n].email && r.users[k].companyId == r.users[n].companyId;
    }
  }

  /** The per-company index does not make emails unique: two companies may each have a user with one email. */
  lemma SameEmailInTwoCompanies(email: string)
    requires |email| <= 200
    ensures exists t: Tables, a, b ::
              Consistent(t) && a in t.users && b in t.users && a != b && t.users[a].email == t.users[b].email == email
  {
    var c1 := NewCompany().(id := 1, email := "a");
    var c2 := NewCompany().(id := 2, email := "b");
    var u1 := NewUser().(id := 1, companyId := 1, email := email);
    var u2 := NewUser().(id := 2, companyId := 2, email := email);
    var t := Tables(map[1 := c1, 2 := c2], map[1 := u1, 2 := u2], map[], map[], map[], map[], 3, 3);
    assert KeysMatch(t);
    assert CompanyEmailUnique(t.companies);
    assert UserEmailUniquePerCompany(t.users);
    assert Consistent(t);
    assert 1 in t.users && 2 in t.users && t.users[1].email == t.users[2].email == email;
  }

  /** A permission row is stored exactly when its project and user exist and the pair has no row yet. */
  lemma InsertPermissionAccepted(t: Tables, p: ProjectPermission)
    requires Consistent(t) && p.id !in t.projectPermissions
    ensures Consistent(t.(projectPermissions := t.projectPermissions[p.id := p])) <==>
              p.projectId in t.projects && p.userId in t.users
              && forall k :: k in t.projectPermissions ==>
                   !(t.projectPermissions[k].projectId == p.projectId && t.projectPermissions[k].userId == p.userId)
  {
    var r := t.(projectPermissions := t.projectPermissions[p.id := p]);
    if p.projectId in t.projects && p.userId in t.users
       && forall k :: k in t.projectPermissions ==>
            !(t.projectPermissions[k].projectId == p.projectId && t.projectPermissions[k].userId == p.userId) {
      assert KeysMatch(r);
      assert PermissionPairUnique(r.projectPermissions);
      assert ReferencesResolve(r);
    } else if p.projectId in t.projects && p.userId in t.users {
      var k :| k in t.projectPermissions && t.projectPermissions[k].projectId == p.projectId && t.projectPermissions[k].userId == p.userId;
      assert k != p.id && r.projectPermissions[k].projectId == r.projectPermissions[p.id].projectId;
    } else if p.projectId !in t.projects {
      assert r.projectPermissions[p.id].projectId !in r.projects;
    } else {
      assert r.projectPermissions[p.id].userId !in r.users;
    }
  }

  /** Rewriting a user row with the same company, names and email keeps the store consistent. */
  lemma ReplaceUserAccepted(t: Tables, u: User)
    requires Consistent(t) && u.id in t.users
    requires u.companyId == t.users[u.id].companyId && u.email == t.users[u.id].email
    requires u.firstName == t.users[u.id].firstName && u.lastName == t.users[u.id].lastName
    ensures Consistent(t.(users := t.users[u.id := u]))
  {
    var r := t.(users := t.users[u.id := u]);
    assert r.users.Keys == t.users.Keys;
    assert KeysMatch(r);
    assert UserEmailUniquePerCompany(r.users);
    assert RowsFit(r);
    assert ReferencesResolve(r);
  }

  // ----- The context -----

  /**
   * ApplicationDbContext: the database's tables, as this context sees them,
   * and the change tracker's entries.
   */
  class AppDb {
    var companies: map<int, Company>
    var users: map<int, User>
    var projects: map<int, Project>
    var documents: map<int, Document>
    var projectPermissions: map<int, ProjectPermission>
    var auditLogs: map<int, AuditLog>
    var nextCompanyId: int
    var nextUserId: int
    var tracked: seq<Entry>

    function Snapshot(): Tables
      reads this`companies, this`users, this`projects, this`documents
      reads this`projectPermissions, this`auditLogs, this`nextCompanyId, this`nextUserId
    {
      Tables(companies, users, projects, documents, projectPermissions, auditLogs, nextCompanyId, nextUserId)
    }

    ghost predicate Valid()
      reads this`companies, this`users, this`projects, this`documents
      reads this`projectPermissions, this`auditLogs, this`nextCompanyId, this`nextUserId
    {
      Consistent(Snapshot())
    }

    /** A context over an empty database. */
    constructor ()
      ensures Valid() && Snapshot() == EmptyTables() && tracked == []
    {
      companies, users, projects, documents := map[], map[], map[], map[];
      projectPermissions, auditLogs := map[], map[];
      nextCompanyId, nextUserId := 1, 1;
      tracked := [];
    }

    /** DbSet.Add: begin tracking a new entity as Added. */
    method Add(row: Row)
      modifies this`tracked
      ensures tracked == old(tracked) + [Entry(Added, row)]
    {
      tracked := tracked + [Entry(Added, row)];
    }

    /**
     * Assigning to a property of the i-th tracked entity, as DetectChanges sees
     * it: an Unchanged entry becomes Modified, a Modified one stays so.
     */
    method MarkModified(i: nat, row: Row)
      requires i < |tracked| && tracked[i].state in {Unchanged, Modified}
      modifies this`tracked
      ensures tracked == old(tracked)[i := Entry(Modified, row)]
    {
      tracked := tracked[i := Entry(Modified, row)];
    }

    /** ChangeTracker.Clear, as at the end of a request-scoped context. */
    method ClearTracker()
      modifies this`tracked
      ensures tracked == []
    {
      tracked := [];
    }

    /** `Companies.FirstOrDefaultAsync(c => c.Email == email)`; a found row becomes tracked as Unchanged. */
    method FindCompanyByEmail(email: string) returns (found: Option<Company>)
      requires Valid()
      modifies this`tracked
      ensures found.None? <==> !CompanyEmailTaken(Snapshot(), email)
      ensures found.Some? ==> found.value.id in companies && companies[found.value.id] == found.value && found.value.email == email
      ensures tracked == old(tracked) + (if found.Some? then [Entry(Unchanged, CompanyRow(found.value))] else [])
      ensures found.Some? ==> forall k :: k in companies && companies[k].email == email ==> k == found.value.id
    {
      if CompanyEmailTaken(Snapshot(), email) {
        var k :| k in companies && companies[k].email == email;
        found := Some(companies[k]);
        tracked := tracked + [Entry(Unchanged, CompanyRow(companies[k]))];
      } else {
        found := Option.None;
      }
    }

    /**
     * `Users.FirstOrDefaultAsync(u => u.Email == email)`, optionally with
     * `.Include(u => u.Company)`. No order is given, so when several users of
     * different companies share the email, any one of them may be returned.
     */
    method FindUserByEmail(email: string, includeCompany: bool) returns (found: Option<User>)
      requires Valid()
      modifies this`tracked
      ensures found.None? <==> !UserEmailTaken(Snapshot(), email)
      ensures found.Some? ==> found.value.id in users && users[found.value.id] == found.value && found.value.email == email
      ensures found.Some? ==> found.value.companyId in companies
      ensures tracked == old(tracked) +
                (if found.None? then []
                 else [Entry(Unchanged, UserRow(found.value))] +
                      (if includeCompany then [Entry(Unchanged, CompanyRow(companies[found.value.companyId]))] else []))
    {
      if UserEmailTaken(Snapshot(), email) {
        var k :| k in users && users[k].email == email;
        var u := users[k];
        found := Some(u);
        tracked := tracked + [Entry(Unchanged, UserRow(u))];
        if includeCompany {
          tracked := tracked + [Entry(Unchanged, CompanyRow(companies[u.companyId]))];
        }
      } else {
        found := Option.None;
      }
    }

    /**
     * SaveChangesAsync. First the override's loop: each Added entry gets
     * CreatedAt = now, each Modified entry UpdatedAt = now, the rest are left
     * alone. Then the database commits the entries; it refuses, leaving the
     * tables as they were, when a write fails or the result breaks a model
     * rule. Either way the tracker keeps the stamped entities.
     */
    method SaveChanges(now: Time) returns (r: Result<nat, DbError>)
      requires Valid()
      modifies this
      ensures Valid()
      ensures var stamped := StampAll(old(tracked), now);
              var outcome := Commit(old(Snapshot()), stamped);
              if outcome.Success? && Consistent(outcome.value.0) then
                r == Success(Written(old(tracked))) && Snapshot() == outcome.value.0 && tracked == outcome.value.1
              else
                r == Failure(if outcome.Failure? then outcome.error else DbUpdate)
                && Snapshot() == old(Snapshot()) && tracked == stamped
    {
      StampTracked(now);
      WrittenStamped(old(tracked), now);
      var outcome := Commit(Snapshot(), tracked);
      if outcome.Success? && Consistent(outcome.value.0) {
        r := Success(Written(tracked));
        Load(outcome.value.0, outcome.value.1);
      } else {
        r := Failure(if outcome.Failure? then outcome.error else DbUpdate);
      }
    }

    /** The loop of the SaveChanges override over the change tracker's entries. */
    method StampTracked(now: Time)
      modifies this`tracked
      ensures tracked == StampAll(old(tracked), now)
    {
      var i := 0;
      while i < |tracked|
        invariant 0 <= i <= |tracked| == |old(tracked)|
        invariant forall k :: 0 <= k < i ==> tracked[k] == Stamp(old(tracked)[k], now)
        invariant forall k :: i <= k < |tracked| ==> tracked[k] == old(tracked)[k]
      {
        var entry := tracked[i];
        match entry.state {
          case Added =>
            tracked := tracked[i := entry.(row := WithCreatedAt(entry.row, now))];
          case Modified =>
            tracked := tracked[i := entry.(row := WithUpdatedAt(entry.row, now))];
          case _ =>
        }
        i := i + 1;
      }
    }

    /** The database's accepted commit becomes what this context sees. */
    method Load(t: Tables, es: seq<Entry>)
      modifies this
      ensures Snapshot() == t && tracked == es
    {
      companies, users, projects, documents := t.companies, t.users, t.projects, t.documents;
      projectPermissions, auditLogs := t.projectPermissions, t.auditLogs;
      nextCompanyId, nextUserId := t.nextCompanyId, t.nextUserId;
      tracked := es;
    }
  }

  /** Stamping changes no entry's state, so it does not change how many entries are written. */
  lemma {:induction false} WrittenStamped(es: seq<Entry>, now: Time)
    ensures Written(StampAll(es, now)) == Written(es)
  {
    if es != [] {
      WrittenStamped(es[1..], now);
      assert StampAll(es, now)[1..] == StampAll(es[1..], now);
    }
  }
}
