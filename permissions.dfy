/**
 * The dataset authorization policy of the GraphQL server: who may read,
 * write or administer a dataset.
 *
 * The two stores the policy queries are plain maps: the dataset store maps a
 * dataset id to its `public` flag, the permission store maps a
 * (datasetId, userId) pair to the permission record granted to that user.
 * A denial or a missing dataset, thrown as an `Error` by the server, is an
 * `Outcome.Fail` carrying the exact message.
 */
module Permissions {
  import opened Wrappers

  /** The outcome of one check: allowed, or failed with the thrown message. */
  datatype Outcome = Ok | Fail(message: string)

  /** A permission state: the levels that satisfy it and the message a denial carries. */
  datatype State = State(errorMessage: string, allowed: seq<string>)

  const READ: State := State("You do not have access to read this dataset.", ["ro", "rw", "admin"])
  const WRITE: State := State("You do not have access to modify this dataset.", ["rw", "admin"])
  const ADMIN: State := State("You do not have admin access to this dataset.", ["admin"])

  /** A stored grant of a level to one user on one dataset. */
  datatype Permission = Permission(level: string)

  /** The user details attached to a request; `admin` marks a site administrator. */
  datatype UserInfo = UserInfo(admin: bool)

  /** The two collections the policy reads. */
  datatype Db = Db(datasets: map<string, bool>, permissions: map<(string, string), Permission>)

  /**
   * What a permission lookup hands to `CheckPermissionLevel`: no document,
   * a document with its level, or a promise that was never awaited (an
   * object that is truthy but has no `level`).
   */
  datatype Lookup = NoRecord | Record(level: string) | Pending

  /** A MongoDB dataset query: the id, and whether only public datasets match. */
  datatype Query = Query(id: string, publicOnly: bool)

  /** JavaScript truthiness of a user id: absent and the empty string are both falsy. */
  predicate Identified(userId: Option<string>)
  {
    userId.Some? && userId.value != ""
  }

  /** True when the read query carries no `public` restriction for this actor. */
  predicate SeesAllDatasets(userId: Option<string>, userInfo: Option<UserInfo>)
  {
    Identified(userId) && (userInfo.None? || userInfo.value.admin)
  }

  /** The message of a failed existence check. */
  function NotFoundMessage(datasetId: string): string
  {
    "Dataset " + datasetId + " does not exist."
  }

  /** `datasetReadQuery`: restrict to public datasets unless the actor may see every dataset. */
  function DatasetReadQuery(datasetId: string, userId: Option<string>, userInfo: Option<UserInfo>): (q: Query)
    ensures q.id == datasetId
    ensures q.publicOnly <==> !Identified(userId) || (userInfo.Some? && !userInfo.value.admin)
    ensures !q.publicOnly <==> SeesAllDatasets(userId, userInfo)
  {
    if !Identified(userId) || (userInfo.Some? && !userInfo.value.admin) then
      Query(datasetId, true)
    else
      Query(datasetId, false)
  }

  /** `Dataset.findOne(query)`: whether some stored dataset matches the query. */
  function FindDataset(datasets: map<string, bool>, q: Query): bool
  {
    q.id in datasets && (!q.publicOnly || datasets[q.id])
  }

  /**
   * `Permission.findOne({datasetId, userId})`, resolved. Every stored record
   * carries a user id, so an absent user id finds nothing.
   */
  function FindPermission(db: Db, datasetId: string, userId: Option<string>): Lookup
  {
    if userId.Some? && (datasetId, userId.value) in db.permissions then
      Record(db.permissions[(datasetId, userId.value)].level)
    else
      NoRecord
  }

  /** `checkPermissionLevel`: a present record whose level the state allows. */
  function CheckPermissionLevel(permission: Lookup, state: State): (r: bool)
    ensures permission.NoRecord? ==> !r
    ensures permission.Pending? ==> !r
    ensures permission.Record? ==> (r <==> permission.level in state.allowed)
  {
    match permission
    case NoRecord => false
    case Pending => false  // a promise object has no `level`, and `undefined` is in no list
    case Record(level) => level in state.allowed
  }

  /** The user holds a record on the dataset whose level the state allows. */
  predicate HasLevel(db: Db, datasetId: string, userId: Option<string>, state: State)
  {
    userId.Some? && (datasetId, userId.value) in db.permissions
    && db.permissions[(datasetId, userId.value)].level in state.allowed
  }

  /** `checkDatasetExists`: fails unless the dataset store holds the id. */
  function CheckDatasetExists(db: Db, datasetId: string): (r: Outcome)
    ensures r == Ok <==> datasetId in db.datasets
    ensures r.Fail? ==> r.message == NotFoundMessage(datasetId)
  {
    if datasetId in db.datasets then Ok else Fail(NotFoundMessage(datasetId))
  }

  /** `checkDatasetRead`. */
  function CheckDatasetRead(db: Db, datasetId: string, userId: Option<string>, userInfo: Option<UserInfo>): (r: Outcome)
    ensures datasetId !in db.datasets ==> r == Fail(NotFoundMessage(datasetId))
    ensures datasetId in db.datasets ==>
      (r == Ok <==> db.datasets[datasetId] || SeesAllDatasets(userId, userInfo) || HasLevel(db, datasetId, userId, READ))
    ensures datasetId in db.datasets && r.Fail? ==> r.message == READ.errorMessage
  {
    var found := CheckDatasetExists(db, datasetId);
    if found.Fail? then
      found
    else if FindDataset(db.datasets, DatasetReadQuery(datasetId, userId, userInfo)) then
      Ok
    else if CheckPermissionLevel(FindPermission(db, datasetId, userId), READ) then
      Ok
    else
      Fail(READ.errorMessage)
  }

  /**
   * What `checkDatasetWrite` reads of `userInfo` is defined: the server reads
   * `userInfo.admin` for an identified user on an existing dataset and would
   * throw a TypeError if `userInfo` were undefined there; that crash is not
   * modelled, so callers supply `userInfo` in that case.
   */
  predicate UserInfoPresent(db: Db, datasetId: string, userId: Option<string>, userInfo: Option<UserInfo>)
  {
    datasetId in db.datasets && Identified(userId) ==> userInfo.Some?
  }

  /** `checkDatasetWrite` as intended: the permission lookup is awaited before its level is tested. */
  function CheckDatasetWrite(db: Db, datasetId: string, userId: Option<string>, userInfo: Option<UserInfo>, state: State): (r: Outcome)
    requires UserInfoPresent(db, datasetId, userId, userInfo)
    ensures datasetId !in db.datasets ==> r == Fail(NotFoundMessage(datasetId))
    ensures datasetId in db.datasets && !Identified(userId) ==> r == Fail(state.errorMessage)
    ensures datasetId in db.datasets && Identified(userId) && userInfo.value.admin ==> r == Ok
    ensures datasetId in db.datasets && Identified(userId) && !userInfo.value.admin ==>
      (r == Ok <==> HasLevel(db, datasetId, userId, state))
    ensures datasetId in db.datasets && r.Fail? ==> r.message == state.errorMessage
  {
    var found := CheckDatasetExists(db, datasetId);
    if found.Fail? then
      found
    else if !Identified(userId) then
      Fail(state.errorMessage)
    else if userInfo.value.admin then
      Ok
    else if CheckPermissionLevel(FindPermission(db, datasetId, userId), state) then
      Ok
    else
      Fail(state.errorMessage)
  }

  /**
   * `checkDatasetWrite` as the server has it: the permission lookup is not
   * awaited, so the level test receives a pending promise.
   */
  function CheckDatasetWriteAsWritten(db: Db, datasetId: string, userId: Option<string>, userInfo: Option<UserInfo>, state: State): (r: Outcome)
    requires UserInfoPresent(db, datasetId, userId, userInfo)
    ensures datasetId !in db.datasets ==> r == Fail(NotFoundMessage(datasetId))
    ensures datasetId in db.datasets ==>
      (r == Ok <==> Identified(userId) && userInfo.value.admin)
    ensures datasetId in db.datasets && r.Fail? ==> r.message == state.errorMessage
  {
    var found := CheckDatasetExists(db, datasetId);
    if found.Fail? then
      found
    else if !Identified(userId) then
      Fail(state.errorMessage)
    else if userInfo.value.admin then
      Ok
    else if CheckPermissionLevel(Pending, state) then
      Ok
    else
      Fail(state.errorMessage)
  }

  /** `checkDatasetAdmin`: the write check with the ADMIN state. */
  function CheckDatasetAdmin(db: Db, datasetId: string, userId: Option<string>, userInfo: Option<UserInfo>): (r: Outcome)
    requires UserInfoPresent(db, datasetId, userId, userInfo)
    ensures datasetId !in db.datasets ==> r == Fail(NotFoundMessage(datasetId))
    ensures datasetId in db.datasets ==>
      (r == Ok <==> Identified(userId) && (userInfo.value.admin || HasLevel(db, datasetId, userId, ADMIN)))
    ensures datasetId in db.datasets && r.Fail? ==> r.message == ADMIN.errorMessage
  {
    CheckDatasetWrite(db, datasetId, userId, userInfo, ADMIN)
  }

  /**
   * `checkAdmin`: a site-wide check that the actor is an identified site
   * administrator. The server reads `userInfo.admin` whenever the user id is
   * truthy and would throw a TypeError if `userInfo` were undefined there;
   * that crash is not modelled, so callers supply `userInfo` in that case.
   */
  function CheckAdmin(userId: Option<string>, userInfo: Option<UserInfo>): (r: Outcome)
    requires Identified(userId) ==> userInfo.Some?
    ensures r == Ok <==> Identified(userId) && userInfo.value.admin
    ensures r.Fail? ==> r.message == ADMIN.errorMessage
  {
    if Identified(userId) && userInfo.value.admin then Ok else Fail(ADMIN.errorMessage)
  }

  // ----- properties of the policy -----

  /** An independent ordering of the three levels; any other string ranks lowest. */
  function Rank(level: string): nat
  {
    if level == "admin" then 3 else if level == "rw" then 2 else if level == "ro" then 1 else 0
  }

  /** Each state accepts exactly the levels at or above its threshold: ro < rw < admin. */
  lemma LevelsFollowRank(level: string)
    ensures CheckPermissionLevel(Record(level), READ) <==> Rank(level) >= 1
    ensures CheckPermissionLevel(Record(level), WRITE) <==> Rank(level) >= 2
    ensures CheckPermissionLevel(Record(level), ADMIN) <==> Rank(level) >= 3
  {
  }

  /** The visibility-scoped query finds the dataset iff it is stored and is public or the actor sees every dataset. */
  lemma ReadQueryFinds(datasets: map<string, bool>, datasetId: string, userId: Option<string>, userInfo: Option<UserInfo>)
    ensures FindDataset(datasets, DatasetReadQuery(datasetId, userId, userInfo))
      <==> datasetId in datasets && (datasets[datasetId] || SeesAllDatasets(userId, userInfo))
  {
  }

  /** Testing the resolved lookup against a state is holding a record whose level the state allows. */
  lemma ResolvedLookupIsHasLevel(db: Db, datasetId: string, userId: Option<string>, state: State)
    ensures CheckPermissionLevel(FindPermission(db, datasetId, userId), state) <==> HasLevel(db, datasetId, userId, state)
  {
  }

  /** The allowed sets are nested: ADMIN within WRITE within READ. */
  lemma StatesNested(p: Lookup)
    ensures CheckPermissionLevel(p, ADMIN) ==> CheckPermissionLevel(p, WRITE)
    ensures CheckPermissionLevel(p, WRITE) ==> CheckPermissionLevel(p, READ)
  {
    if p.Record? {
      LevelsFollowRank(p.level);
    }
  }

  /** A missing dataset fails every dataset check with the same message, for every actor. */
  lemma MissingDatasetFailsFirst(db: Db, datasetId: string, userId: Option<string>, userInfo: Option<UserInfo>)
    requires datasetId !in db.datasets
    ensures CheckDatasetRead(db, datasetId, userId, userInfo) == Fail(NotFoundMessage(datasetId))
    ensures CheckDatasetWrite(db, datasetId, userId, userInfo, WRITE) == Fail(NotFoundMessage(datasetId))
    ensures CheckDatasetAdmin(db, datasetId, userId, userInfo) == Fail(NotFoundMessage(datasetId))
  {
  }

  /** A public dataset is readable by everyone, with or without a permission record. */
  lemma PublicIsReadable(db: Db, datasetId: string, userId: Option<string>, userInfo: Option<UserInfo>)
    requires datasetId in db.datasets && db.datasets[datasetId]
    ensures CheckDatasetRead(db, datasetId, userId, userInfo) == Ok
  {
  }

  /** An identified site administrator passes every check on an existing dataset. */
  lemma SiteAdminPassesEverything(db: Db, datasetId: string, userId: Option<string>, info: UserInfo)
    requires datasetId in db.datasets && Identified(userId) && info.admin
    ensures CheckDatasetRead(db, datasetId, userId, Some(info)) == Ok
    ensures CheckDatasetWrite(db, datasetId, userId, Some(info), WRITE) == Ok
    ensures CheckDatasetAdmin(db, datasetId, userId, Some(info)) == Ok
    ensures CheckAdmin(userId, Some(info)) == Ok
  {
  }

  /**
   * An anonymous actor reads only public datasets and never writes or
   * administers. The read half rests on the modelling choice in
   * `FindPermission` that a lookup without a user id finds no record; the
   * server still sends `{ datasetId, userId: undefined }` to the store.
   */
  lemma AnonymousActor(db: Db, datasetId: string, userInfo: Option<UserInfo>)
    requires datasetId in db.datasets
    ensures CheckDatasetRead(db, datasetId, None, userInfo) == Ok <==> db.datasets[datasetId]
    ensures CheckDatasetWrite(db, datasetId, None, userInfo, WRITE) == Fail(WRITE.errorMessage)
    ensures CheckDatasetAdmin(db, datasetId, None, userInfo) == Fail(ADMIN.errorMessage)
  {
  }

  /** Whoever may administer a dataset may also write it. */
  lemma AdminImpliesWrite(db: Db, datasetId: string, userId: Option<string>, userInfo: Option<UserInfo>)
    requires UserInfoPresent(db, datasetId, userId, userInfo)
    requires CheckDatasetAdmin(db, datasetId, userId, userInfo) == Ok
    ensures CheckDatasetWrite(db, datasetId, userId, userInfo, WRITE) == Ok
  {
    StatesNested(FindPermission(db, datasetId, userId));
  }

  /** Whoever may write a dataset may also read it. */
  lemma WriteImpliesRead(db: Db, datasetId: string, userId: Option<string>, userInfo: Option<UserInfo>)
    requires UserInfoPresent(db, datasetId, userId, userInfo)
    requires CheckDatasetWrite(db, datasetId, userId, userInfo, WRITE) == Ok
    ensures CheckDatasetRead(db, datasetId, userId, userInfo) == Ok
  {
    StatesNested(FindPermission(db, datasetId, userId));
  }

  /** As written, an identified non-administrator is denied write and admin access whatever they hold. */
  lemma AsWrittenDeniesNonAdmins(db: Db, datasetId: string, userId: Option<string>, info: UserInfo, state: State)
    requires datasetId in db.datasets && Identified(userId) && !info.admin
    ensures CheckDatasetWriteAsWritten(db, datasetId, userId, Some(info), state) == Fail(state.errorMessage)
  {
  }

  /** The written and the intended write check disagree exactly on non-administrators holding a sufficient grant. */
  lemma AsWrittenDiffersFromIntended(db: Db, datasetId: string, userId: Option<string>, userInfo: Option<UserInfo>, state: State)
    requires UserInfoPresent(db, datasetId, userId, userInfo)
    ensures CheckDatasetWriteAsWritten(db, datasetId, userId, userInfo, state) != CheckDatasetWrite(db, datasetId, userId, userInfo, state)
      <==> datasetId in db.datasets && Identified(userId) && !userInfo.value.admin && HasLevel(db, datasetId, userId, state)
  {
  }

  /** A concrete input that shows the defect: user u1 holds `rw` on private dataset ds001. */
  lemma AsWrittenCounterexample()
    ensures var db := Db(map["ds001" := false], map[("ds001", "u1") := Permission("rw")]);
      && CheckDatasetWrite(db, "ds001", Some("u1"), Some(UserInfo(false)), WRITE) == Ok
      && CheckDatasetWriteAsWritten(db, "ds001", Some("u1"), Some(UserInfo(false)), WRITE) == Fail(WRITE.errorMessage)
  {
  }

  /** Worked scenarios of the policy. */
  lemma Scenarios()
    ensures var db := Db(map["ds001" := false, "ds003" := true, "ds004" := false],
                         map[("ds001", "u1") := Permission("ro")]);
      && CheckDatasetRead(db, "ds001", Some("u1"), Some(UserInfo(false))) == Ok
      && CheckDatasetWrite(db, "ds001", Some("u1"), Some(UserInfo(false)), WRITE)
         == Fail("You do not have access to modify this dataset.")
      && CheckDatasetRead(db, "ds002", None, None) == Fail("Dataset ds002 does not exist.")
      && CheckDatasetRead(db, "ds003", Some("u2"), Some(UserInfo(false))) == Ok
      && CheckDatasetAdmin(db, "ds003", Some("u2"), Some(UserInfo(false)))
         == Fail("You do not have admin access to this dataset.")
      && CheckDatasetAdmin(db, "ds004", Some("s1"), Some(UserInfo(true))) == Ok
  {
  }
}
