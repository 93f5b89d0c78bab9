/**
 * The `/signup` and `/login` handlers of python/app.py over the `users`
 * table. The table is a sequence of rows in insertion order with an
 * auto-increment id; a failing database call is an input (`dbError`), whose
 * text becomes the 500 response.
 */
module UsersApi {
  import opened Wrappers

  /** A row of `users`: (id, name, email, password), the password kept as plain text. */
  datatype Row = Row(id: nat, name: string, email: string, password: string)

  /** The user object a successful login returns: no password and no role. */
  datatype PublicUser = PublicUser(id: nat, name: string, email: string)

  datatype Body =
    | Message(message: string)
    | Error(error: string)
    | LoginSuccess(message: string, user: PublicUser)

  datatype Response = Response(body: Body, status: int)

  const FieldsRequired := "All fields are required"
  const EmailInUse := "Email already in use"
  const Registered := "User registered and saved in database"
  const CredentialsRequired := "Email and password are required"
  const LoginSucceeded := "Login successful"
  const InvalidCredentials := "Invalid email or password"

  /** Python truthiness of a request field: present and not the empty string. */
  predicate Filled(field: Option<string>) {
    field.Some? && field.value != ""
  }

  /** The three signup fields are all filled. */
  predicate Complete(name: Option<string>, email: Option<string>, password: Option<string>) {
    Filled(name) && Filled(email) && Filled(password)
  }

  /** `SELECT * FROM users WHERE email = %s` followed by `fetchone()`: the first matching row. */
  function FindByEmail(rows: seq<Row>, email: string): (r: Option<Row>)
    ensures r.Some? ==> r.value in rows && r.value.email == email
    ensures r.None? <==> forall row :: row in rows ==> row.email != email
  {
    if rows == [] then None
    else if rows[0].email == email then Some(rows[0])
    else FindByEmail(rows[1..], email)
  }

  /** No two rows share an email. */
  ghost predicate UniqueEmails(rows: seq<Row>) {
    forall i, j :: 0 <= i < j < |rows| ==> rows[i].email != rows[j].email
  }

  /** With unique emails, a row found by email is the only row with that email. */
  lemma FoundIsOnly(rows: seq<Row>, email: string, row: Row)
    requires UniqueEmails(rows) && row in rows && row.email == email
    ensures FindByEmail(rows, email) == Some(row)
  {
  }

  class UsersTable {
    var rows: seq<Row>
    /** The id the next insert receives. */
    var nextId: nat

    ghost predicate Valid()
      reads this
    {
      && UniqueEmails(rows)
      && forall row :: row in rows ==> row.id < nextId
    }

    constructor ()
      ensures Valid() && rows == [] && nextId == 1
    {
      rows := [];
      nextId := 1;
    }

    /** `signup`: validate, refuse a taken email, else insert one row. */
    method Signup(name: Option<string>, email: Option<string>, password: Option<string>, dbError: Option<string>)
      returns (resp: Response)
      requires Valid()
      modifies this
      ensures Valid()
      ensures !Complete(name, email, password) ==>
        resp == Response(Error(FieldsRequired), 400) && rows == old(rows) && nextId == old(nextId)
      ensures Complete(name, email, password) && dbError.Some? ==>
        resp == Response(Error(dbError.value), 500) && rows == old(rows) && nextId == old(nextId)
      ensures (Complete(name, email, password) && dbError.None? && FindByEmail(old(rows), email.value).Some?) ==>
        resp == Response(Error(EmailInUse), 409) && rows == old(rows) && nextId == old(nextId)
      ensures (Complete(name, email, password) && dbError.None? && FindByEmail(old(rows), email.value).None?) ==>
        && resp == Response(Message(Registered), 201)
        && rows == old(rows) + [Row(old(nextId), name.value, email.value, password.value)]
        && nextId == old(nextId) + 1
    {
      if !Complete(name, email, password) {
        return Response(Error(FieldsRequired), 400);
      }
      if dbError.Some? {
        return Response(Error(dbError.value), 500);
      }
      var existing := FindByEmail(rows, email.value);
      if existing.Some? {
        return Response(Error(EmailInUse), 409);
      }
      rows := rows + [Row(nextId, name.value, email.value, password.value)];
      nextId := nextId + 1;
      resp := Response(Message(Registered), 201);
    }

    /** `login`: validate, look the email up, compare the stored password; reads only. */
    method Login(email: Option<string>, password: Option<string>, dbError: Option<string>)
      returns (resp: Response)
      requires Valid()
      ensures !(Filled(email) && Filled(password)) ==> resp == Response(Error(CredentialsRequired), 400)
      ensures Filled(email) && Filled(password) && dbError.Some? ==>
        resp == Response(Error(dbError.value), 500)
      ensures Filled(email) && Filled(password) && dbError.None? ==>
        (resp.status == 200 <==>
          exists row :: row in rows && row.email == email.value && row.password == password.value)
      ensures resp.status == 200 ==>
        exists row :: row in rows && row.email == email.value && row.password == password.value
          && resp == Response(LoginSuccess(LoginSucceeded, PublicUser(row.id, row.name, row.email)), 200)
      ensures Filled(email) && Filled(password) && dbError.None? && resp.status != 200 ==>
        resp == Response(Error(InvalidCredentials), 401)
    {
      if !Filled(email) || !Filled(password) {
        return Response(Error(CredentialsRequired), 400);
      }
      if dbError.Some? {
        return Response(Error(dbError.value), 500);
      }
      var found := FindByEmail(rows, email.value);
      match found {
        case Some(row) =>
          if password.value == row.password {
            resp := Response(LoginSuccess(LoginSucceeded, PublicUser(row.id, row.name, row.email)), 200);
          } else {
            forall other | other in rows && other.email == email.value
              ensures other.password != password.value
            {
              FoundIsOnly(rows, email.value, other);
            }
            resp := Response(Error(InvalidCredentials), 401);
          }
        case None =>
          resp := Response(Error(InvalidCredentials), 401);
      }
    }
  }

  /** Signing up and then logging in with the same credentials succeeds. */
  method SignupThenLogin(db: UsersTable, name: string, email: string, password: string) returns (signup: Response, login: Response)
    requires db.Valid()
    requires name != "" && email != "" && password != ""
    requires FindByEmail(db.rows, email).None?
    modifies db
    ensures signup.status == 201
    ensures login == Response(LoginSuccess(LoginSucceeded, PublicUser(old(db.nextId), name, email)), 200)
  {
    signup := db.Signup(Some(name), Some(email), Some(password), None);
    login := db.Login(Some(email), Some(password), None);
    ghost var row := Row(old(db.nextId), name, email, password);
    assert row in db.rows;
    FoundIsOnly(db.rows, email, row);
  }
}
