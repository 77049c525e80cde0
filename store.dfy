/**
 * The database the endpoints share: one map from primary key to row per table. An endpoint
 * that adds, changes or deletes rows reassigns the maps; changing a column of a loaded row
 * replaces that row by an updated copy.
 */
module Store {
  import opened Common
  import opened OrganizationModel
  import opened UserModel
  import opened Records

  /** The content of every table at one moment. */
  datatype Tables = Tables(
    organizations: map<Id, Organization>,
    users: map<Id, User>,
    documents: map<Id, Document>,
    summaries: map<Id, Summary>,
    activityLogs: map<Id, ActivityLog>
  )

  class Database {
    var organizations: map<Id, Organization>
    var users: map<Id, User>
    var documents: map<Id, Document>
    var summaries: map<Id, Summary>
    var activityLogs: map<Id, ActivityLog>

    /** An empty database. */
    constructor ()
      ensures State() == Tables(map[], map[], map[], map[], map[])
      ensures Valid()
    {
      organizations := map[];
      users := map[];
      documents := map[];
      summaries := map[];
      activityLogs := map[];
    }

    function State(): Tables
      reads this
    {
      Tables(organizations, users, documents, summaries, activityLogs)
    }

    /**
     * Every row is stored under its own id, `users.email` is unique and so is
     * `users.invitation_token` where it is set.
     */
    predicate Valid()
      reads this
    {
      (forall id :: id in organizations ==> organizations[id].id == id)
      && (forall id :: id in users ==> users[id].id == id)
      && (forall id :: id in documents ==> documents[id].id == id)
      && (forall id :: id in summaries ==> summaries[id].id == id)
      && (forall id :: id in activityLogs ==> activityLogs[id].id == id)
      && (forall a, b :: a in users && b in users && users[a].email == users[b].email ==> a == b)
      && (forall a, b :: a in users && b in users && users[a].invitationToken.Some? && users[a].invitationToken == users[b].invitationToken ==> a == b)
    }

    /** Some user has this email. */
    predicate EmailTaken(email: string)
      reads this
    {
      exists id :: id in users && users[id].email == email
    }

    /** Some user holds this invitation token. */
    predicate TokenHeld(token: string)
      reads this
    {
      exists id :: id in users && users[id].invitationToken == Some(token)
    }
  }

  /** `db.query(User).filter(User.email == email).first()`. */
  method FindUserByEmail(db: Database, email: string) returns (u: Option<User>)
    requires db.Valid()
    ensures u.Some? <==> db.EmailTaken(email)
    ensures u.Some? ==> u.value.id in db.users && db.users[u.value.id] == u.value && u.value.email == email
  {
    if db.EmailTaken(email) {
      var id :| id in db.users && db.users[id].email == email;
      u := Some(db.users[id]);
    } else {
      u := None;
    }
  }

  /** `db.query(User).filter(User.invitation_token == token).first()`. */
  method FindUserByToken(db: Database, token: string) returns (u: Option<User>)
    requires db.Valid()
    ensures u.Some? <==> db.TokenHeld(token)
    ensures u.Some? ==> u.value.id in db.users && db.users[u.value.id] == u.value && u.value.invitationToken == Some(token)
  {
    if db.TokenHeld(token) {
      var id :| id in db.users && db.users[id].invitationToken == Some(token);
      u := Some(db.users[id]);
    } else {
      u := None;
    }
  }

  /** `db.add(document)` or a change to a loaded document, then `commit`: stores `d` under its id. */
  method PutDocument(db: Database, d: Document)
    requires db.Valid()
    modifies db
    ensures db.documents == old(db.documents)[d.id := d]
    ensures db.organizations == old(db.organizations) && db.users == old(db.users)
    ensures db.summaries == old(db.summaries) && db.activityLogs == old(db.activityLogs)
    ensures db.Valid()
  {
    db.documents := db.documents[d.id := d];
  }

  /** `db.add(user)`, then `commit`: stores a user under a fresh id, with an unused email and no token. */
  method InsertUser(db: Database, u: User)
    requires db.Valid()
    requires u.id !in db.users && !db.EmailTaken(u.email) && u.invitationToken == None
    modifies db
    ensures db.State() == old(db.State()).(users := old(db.users)[u.id := u])
    ensures db.Valid()
  {
    db.users := db.users[u.id := u];
  }

  /** A change to a loaded user that keeps its email and invitation token, then `commit`. */
  method ReplaceUser(db: Database, u: User)
    requires db.Valid()
    requires u.id in db.users && db.users[u.id].email == u.email && db.users[u.id].invitationToken == u.invitationToken
    modifies db
    ensures db.State() == old(db.State()).(users := old(db.users)[u.id := u])
    ensures db.Valid()
  {
    db.users := db.users[u.id := u];
  }

  /** `db.add(summary)`, then `commit`: stores `s` under its id. */
  method PutSummary(db: Database, s: Summary)
    requires db.Valid()
    modifies db
    ensures db.State() == old(db.State()).(summaries := old(db.summaries)[s.id := s])
    ensures db.Valid()
  {
    db.summaries := db.summaries[s.id := s];
  }

  /** A change to a loaded organization, then `commit`: stores `o` under its id. */
  method PutOrganization(db: Database, o: Organization)
    requires db.Valid()
    modifies db
    ensures db.State() == old(db.State()).(organizations := old(db.organizations)[o.id := o])
    ensures db.Valid()
  {
    db.organizations := db.organizations[o.id := o];
  }

  /** The document `id` if it belongs to organization `org`: a lookup filtered by tenant. */
  function DocumentIn(db: Database, org: Id, id: Id): (r: Option<Document>)
    reads db
    ensures r.Some? <==> id in db.documents && db.documents[id].organizationId == org
    ensures r.Some? ==> r.value == db.documents[id]
  {
    if id in db.documents && db.documents[id].organizationId == org then Some(db.documents[id]) else None
  }

  /** The summary `id` if it belongs to organization `org`. */
  function SummaryIn(db: Database, org: Id, id: Id): (r: Option<Summary>)
    reads db
    ensures r.Some? <==> id in db.summaries && db.summaries[id].organizationId == org
    ensures r.Some? ==> r.value == db.summaries[id]
  {
    if id in db.summaries && db.summaries[id].organizationId == org then Some(db.summaries[id]) else None
  }

  /** Looks a row up by primary key: `db.query(T).filter(T.id == id).first()`. */
  function Lookup<V>(table: map<Id, V>, id: Id): (r: Option<V>)
    ensures r.Some? <==> id in table
    ensures r.Some? ==> r.value == table[id]
  {
    if id in table then Some(table[id]) else None
  }
}
