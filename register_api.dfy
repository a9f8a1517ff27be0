/** The registration endpoint of src/pages/api/register.ts over an in-memory model of its two
    tables: the user catalogue and the append-only audit log. */
module RegisterApi {
  import opened Base

  const MethodNotAllowed := "Method not allowed"
  const FieldsRequired := "Todos los campos son requeridos"
  const PasswordTooShort := "La contraseña debe tener al menos 6 caracteres"
  const UserExists := "El usuario ya existe"
  const Registered := "Usuario registrado exitosamente"
  const InternalError := "Error interno del servidor"
  const EncryptedMarker := "[ENCRYPTED]"
  const MinPasswordLength := 6

  /** The destructured fields of the JSON body; an absent field is `None`. */
  datatype Body = Body(name: Option<string>, email: Option<string>, password: Option<string>)
  /** `body == None` is an undefined or null body, whose destructuring throws. */
  datatype Request = Request(verb: string, body: Option<Body>)
  datatype Response = Response(status: int, message: string, userId: Option<int>)

  datatype UserRow = UserRow(id: int, name: string, email: string, passwd: string)
  /** The `userData` object recorded in `aud_values2`. */
  datatype UserSnapshot = UserSnapshot(usrId: int, usrName: string, usrEmail: string, usrPasswd: string)
  datatype AuditRow = AuditRow(date: string, usr: Option<int>, view: string, event: string,
                               element: string, values1: Option<string>, values2: UserSnapshot)

  /** Which database steps throw: the connection, the duplicate lookup, the user insert, the audit insert. */
  datatype Faults = Faults(connect: bool, lookup: bool, insertUser: bool, insertAudit: bool)

  const NoFaults := Faults(false, false, false, false)

  /** The checks made before the database is touched; `None` means they all pass. */
  function Precheck(req: Request): (r: Option<Response>)
    ensures r.None? <==>
      && req.verb == "POST" && req.body.Some?
      && Truthy(req.body.value.name) && Truthy(req.body.value.email) && Truthy(req.body.value.password)
      && |req.body.value.password.value| >= MinPasswordLength
    ensures r.Some? ==> r.value.status in {400, 405, 500} && r.value.userId == None
    ensures r.Some? && r.value.status == 400 ==> req.verb == "POST" && req.body.Some?
  {
    if req.verb != "POST" then Some(Response(405, MethodNotAllowed, None))
    else if req.body.None? then Some(Response(500, InternalError, None))
    else if !Truthy(req.body.value.name) || !Truthy(req.body.value.email) || !Truthy(req.body.value.password)
    then Some(Response(400, FieldsRequired, None))
    else if |req.body.value.password.value| < MinPasswordLength then Some(Response(400, PasswordTooShort, None))
    else None
  }

  /** The response, given whether the lookup finds the e-mail and the id the next insert receives. */
  function Outcome(req: Request, taken: bool, nextId: int, f: Faults): Response {
    if Precheck(req).Some? then Precheck(req).value
    else if f.connect || f.lookup then Response(500, InternalError, None)
    else if taken then Response(409, UserExists, None)
    else if f.insertUser || f.insertAudit then Response(500, InternalError, None)
    else Response(201, Registered, Some(nextId))
  }

  /** Whether the user row is written: the audit insert comes after and is not undone. */
  predicate InsertsUser(req: Request, taken: bool, f: Faults) {
    Precheck(req).None? && !f.connect && !f.lookup && !taken && !f.insertUser
  }

  predicate InsertsAudit(req: Request, taken: bool, f: Faults) {
    InsertsUser(req, taken, f) && !f.insertAudit
  }

  function AuditEntry(date: string, id: int, name: string, email: string): (a: AuditRow)
    ensures a.usr == None && a.values1 == None && a.values2.usrPasswd == EncryptedMarker
    ensures a.values2.usrId == id && a.values2.usrName == name && a.values2.usrEmail == email
    ensures a.date == date && a.view == "/register" && a.event == "insert" && a.element == "register-form-submit"
  {
    AuditRow(date, None, "/register", "insert", "register-form-submit", None,
             UserSnapshot(id, name, email, EncryptedMarker))
  }

  // ---------------------------------------------------------------------------
  // The decision sequence

  lemma NonPostRejected(req: Request, taken: bool, nextId: int, f: Faults)
    requires req.verb != "POST"
    ensures Outcome(req, taken, nextId, f) == Response(405, MethodNotAllowed, None)
    ensures !InsertsUser(req, taken, f)
  {
  }

  /** A missing field is reported before the password length, whatever the password is. */
  lemma MissingFieldFirst(req: Request, taken: bool, nextId: int, f: Faults)
    requires req.verb == "POST" && req.body.Some?
    requires !Truthy(req.body.value.name) || !Truthy(req.body.value.email) || !Truthy(req.body.value.password)
    ensures Outcome(req, taken, nextId, f) == Response(400, FieldsRequired, None)
    ensures !InsertsUser(req, taken, f)
  {
  }

  /** The only server-side password rule is a lower bound; no e-mail format is checked. */
  lemma PasswordRule(req: Request, taken: bool, nextId: int, f: Faults)
    requires req.verb == "POST" && req.body.Some?
    requires Truthy(req.body.value.name) && Truthy(req.body.value.email) && Truthy(req.body.value.password)
    ensures Outcome(req, taken, nextId, f).status == 400 <==> |req.body.value.password.value| < MinPasswordLength
    ensures |req.body.value.password.value| >= MinPasswordLength ==> Precheck(req) == None
  {
  }

  /** An e-mail already present gives 409 and nothing is written. */
  lemma DuplicateRejected(req: Request, nextId: int, f: Faults)
    requires Precheck(req).None? && !f.connect && !f.lookup
    ensures Outcome(req, true, nextId, f) == Response(409, UserExists, None)
    ensures !InsertsUser(req, true, f) && !InsertsAudit(req, true, f)
  {
  }

  /** 201 exactly when the pre-checks pass, the e-mail is new and no database step throws; the
      reported id is the one the user row receives. */
  lemma CreatedIff(req: Request, taken: bool, nextId: int, f: Faults)
    ensures Outcome(req, taken, nextId, f).status == 201 <==> Precheck(req).None? && !taken && f == NoFaults
    ensures Outcome(req, taken, nextId, f).status == 201 ==>
      Outcome(req, taken, nextId, f).userId == Some(nextId) && InsertsAudit(req, taken, f)
  {
  }

  /** A failing audit insert answers 500 although the user row has been written. */
  lemma AuditFailureKeepsUser(req: Request, nextId: int, f: Faults)
    requires Precheck(req).None? && !f.connect && !f.lookup && !f.insertUser && f.insertAudit
    ensures Outcome(req, false, nextId, f).status == 500
    ensures InsertsUser(req, false, f) && !InsertsAudit(req, false, f)
  {
  }

  lemma StatusCodes(req: Request, taken: bool, nextId: int, f: Faults)
    ensures Outcome(req, taken, nextId, f).status in {201, 400, 405, 409, 500}
    ensures Outcome(req, taken, nextId, f).userId.Some? <==> Outcome(req, taken, nextId, f).status == 201
  {
  }

  // ---------------------------------------------------------------------------
  // The store

  /** `cat_users` and `rec_audit`. `emailKey` is the collation the duplicate lookup compares
      under, `hash` stands for `hashPassword`. */
  class Store {
    var users: seq<UserRow>
    var audit: seq<AuditRow>
    var nextId: int
    const emailKey: string -> string
    const hash: string -> string

    /** Ids are auto-increment values below `nextId`, in insertion order, and the handler never
        lets two rows share an e-mail. */
    ghost predicate Valid()
      reads this
    {
      && (forall i :: 0 <= i < |users| ==> users[i].id < nextId)
      && (forall i, j :: 0 <= i < j < |users| ==> users[i].id < users[j].id)
      && (forall i, j :: 0 <= i < j < |users| ==> emailKey(users[i].email) != emailKey(users[j].email))
    }

    predicate EmailTaken(email: string)
      reads this
    {
      exists i :: 0 <= i < |users| && emailKey(users[i].email) == emailKey(email)
    }

    constructor (emailKey: string -> string, hash: string -> string)
      ensures Valid() && users == [] && audit == [] && nextId == 1
      ensures this.emailKey == emailKey && this.hash == hash
    {
      users := [];
      audit := [];
      nextId := 1;
      this.emailKey := emailKey;
      this.hash := hash;
    }

    method InsertUser(name: string, email: string, passwd: string) returns (id: int)
      requires Valid() && !EmailTaken(email)
      modifies this
      ensures Valid()
      ensures id == old(nextId) && nextId == old(nextId) + 1
      ensures users == old(users) + [UserRow(id, name, email, passwd)] && audit == old(audit)
    {
      id := nextId;
      users := users + [UserRow(id, name, email, passwd)];
      nextId := nextId + 1;
    }

    method AppendAudit(row: AuditRow)
      modifies this
      ensures audit == old(audit) + [row] && users == old(users) && nextId == old(nextId)
    {
      audit := audit + [row];
    }

    /** `handler`: `now` is `getCurrentTimestamp()`, `f` says which database steps throw. */
    method Handle(req: Request, now: string, f: Faults) returns (res: Response)
      requires Valid()
      modifies this
      ensures Valid()
      ensures res == Outcome(req, old(req.body.Some? && req.body.value.email.Some? && EmailTaken(req.body.value.email.value)), old(nextId), f)
      ensures var taken := old(req.body.Some? && req.body.value.email.Some? && EmailTaken(req.body.value.email.value));
        && users == old(users) + (if InsertsUser(req, taken, f)
                                  then [UserRow(old(nextId), req.body.value.name.value, req.body.value.email.value,
                                                hash(req.body.value.password.value))]
                                  else [])
        && audit == old(audit) + (if InsertsAudit(req, taken, f)
                                  then [AuditEntry(now, old(nextId), req.body.value.name.value, req.body.value.email.value)]
                                  else [])
        && nextId == if InsertsUser(req, taken, f) then old(nextId) + 1 else old(nextId)
    {
      if req.verb != "POST" {
        return Response(405, MethodNotAllowed, None);
      }
      if req.body.None? {
        return Response(500, InternalError, None);
      }
      var name, email, password := req.body.value.name, req.body.value.email, req.body.value.password;
      if !Truthy(name) || !Truthy(email) || !Truthy(password) {
        return Response(400, FieldsRequired, None);
      }
      if |password.value| < MinPasswordLength {
        return Response(400, PasswordTooShort, None);
      }
      if f.connect || f.lookup {
        return Response(500, InternalError, None);
      }
      if EmailTaken(email.value) {
        return Response(409, UserExists, None);
      }
      if f.insertUser {
        return Response(500, InternalError, None);
      }
      var insertId := InsertUser(name.value, email.value, hash(password.value));
      if f.insertAudit {
        return Response(500, InternalError, None);
      }
      AppendAudit(AuditEntry(now, insertId, name.value, email.value));
      res := Response(201, Registered, Some(insertId));
    }
  }
}
