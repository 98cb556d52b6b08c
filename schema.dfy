/** The `users` table (server/src/database/schema.ts) as a sequence of rows in
    storage order, together with the constraints PostgreSQL enforces on it. */
module Schema {
  import opened Wrappers

  /** One row. `password` holds the password hash. `id` and `createdAt` are
      filled by the column defaults (a random UUID, the insertion time), so
      the model takes them as inputs of the insert. */
  datatype UserRow = UserRow(id: string, username: string, email: string, password: string, createdAt: nat)

  /** `varchar(50)` and `varchar(255)`: lengths in characters. */
  const UsernameMax := 50
  const EmailMax := 255

  /** SQLSTATE codes PostgreSQL reports for the two constraint kinds. */
  const UniqueViolation := "23505"
  const StringTooLong := "22001"

  predicate Fits(r: UserRow)
  {
    |r.username| <= UsernameMax && |r.email| <= EmailMax
  }

  /** PostgreSQL's assignment of a text to `varchar(n)`: a text of at most `n`
      characters is kept; a longer one whose excess characters are all spaces
      is cut to `n` characters; any other longer text is an error (`None`). */
  function ToVarchar(s: string, n: nat): (r: Option<string>)
    ensures |s| <= n ==> r == Some(s)
    ensures |s| > n ==> (r.Some? <==> forall i | n <= i < |s| :: s[i] == ' ')
    ensures r.Some? ==> |r.value| <= n && r.value == s[..|r.value|]
                        && forall i | |r.value| <= i < |s| :: s[i] == ' '
  {
    if |s| <= n then Some(s)
    else if forall i | n <= i < |s| :: s[i] == ' ' then Some(s[..n])
    else None
  }

  /** The row the table holds after the insert: username and email assigned
      to their `varchar` columns, the other columns as given. */
  function Stored(row: UserRow): (r: Option<UserRow>)
    ensures r.Some? <==> ToVarchar(row.username, UsernameMax).Some? && ToVarchar(row.email, EmailMax).Some?
    ensures r.Some? ==> Fits(r.value) && r.value.id == row.id && r.value.password == row.password
                        && r.value.createdAt == row.createdAt
                        && r.value.username == ToVarchar(row.username, UsernameMax).value
                        && r.value.email == ToVarchar(row.email, EmailMax).value
    ensures Fits(row) ==> r == Some(row)
  {
    match (ToVarchar(row.username, UsernameMax), ToVarchar(row.email, EmailMax))
    case (Some(u), Some(e)) => Some(row.(username := u, email := e))
    case _ => None
  }

  /** No two rows share an id (primary key), a username or an email (unique). */
  predicate Unique(rows: seq<UserRow>)
  {
    forall i, j | 0 <= i < j < |rows| ::
      rows[i].id != rows[j].id && rows[i].username != rows[j].username && rows[i].email != rows[j].email
  }

  predicate TableValid(rows: seq<UserRow>)
  {
    (forall i | 0 <= i < |rows| :: Fits(rows[i])) && Unique(rows)
  }

  /** `findFirst({where: or(eq(email), eq(username))})`, taking the first match
      in storage order. */
  function FindByEmailOrUsername(rows: seq<UserRow>, email: string, username: string): (r: Option<UserRow>)
    ensures r.None? <==> forall i | 0 <= i < |rows| :: rows[i].email != email && rows[i].username != username
    ensures r.Some? ==> r.value in rows && (r.value.email == email || r.value.username == username)
  {
    if rows == [] then None
    else if rows[0].email == email || rows[0].username == username then Some(rows[0])
    else
      var r := FindByEmailOrUsername(rows[1..], email, username);
      assert forall i | 1 <= i < |rows| :: rows[i] == rows[1..][i - 1];
      r
  }

  /** `findFirst({where: eq(email)})`. */
  function FindByEmail(rows: seq<UserRow>, email: string): (r: Option<UserRow>)
    ensures r.None? <==> forall i | 0 <= i < |rows| :: rows[i].email != email
    ensures r.Some? ==> r.value in rows && r.value.email == email
  {
    if rows == [] then None
    else if rows[0].email == email then Some(rows[0])
    else
      var r := FindByEmail(rows[1..], email);
      assert forall i | 1 <= i < |rows| :: rows[i] == rows[1..][i - 1];
      r
  }

  /** Which constraint, if any, a new row breaks: the column widths are
      checked when the row is formed, then the unique indexes on the row as
      it would be stored. */
  function Violation(rows: seq<UserRow>, row: UserRow): (e: Option<Error>)
    ensures e.None? <==> Stored(row).Some? && forall i | 0 <= i < |rows| ::
              rows[i].id != Stored(row).value.id && rows[i].username != Stored(row).value.username
              && rows[i].email != Stored(row).value.email
    ensures e.Some? && Stored(row).Some? ==> e.value.code == Some(UniqueViolation)
    ensures Stored(row).None? ==> e.Some? && e.value.code == Some(StringTooLong)
  {
    if ToVarchar(row.username, UsernameMax).None? then
      Some(Error("value too long for type character varying(50)", Some(StringTooLong)))
    else if ToVarchar(row.email, EmailMax).None? then
      Some(Error("value too long for type character varying(255)", Some(StringTooLong)))
    else
      var stored := Stored(row).value;
      if exists i | 0 <= i < |rows| :: rows[i].id == stored.id then
        Some(Error("duplicate key value violates unique constraint \"users_pkey\"", Some(UniqueViolation)))
      else if exists i | 0 <= i < |rows| :: rows[i].username == stored.username then
        Some(Error("duplicate key value violates unique constraint \"users_username_unique\"", Some(UniqueViolation)))
      else if exists i | 0 <= i < |rows| :: rows[i].email == stored.email then
        Some(Error("duplicate key value violates unique constraint \"users_email_unique\"", Some(UniqueViolation)))
      else None
  }

  /** A row within the widths is stored as given; a username padded past 50
      characters with spaces is stored cut to 50, so it can collide with a
      stored username it does not equal. */
  lemma PaddedUsernameCollides(rows: seq<UserRow>, row: UserRow, j: nat)
    requires j < |rows| && |rows[j].username| == UsernameMax && |row.email| <= EmailMax
    requires |row.username| > UsernameMax && row.username[..UsernameMax] == rows[j].username
    requires forall i | UsernameMax <= i < |row.username| :: row.username[i] == ' '
    ensures row.username != rows[j].username
    ensures Stored(row) == Some(row.(username := rows[j].username))
    ensures Violation(rows, row).Some? && Violation(rows, row).value.code == Some(UniqueViolation)
  {
    assert |row.username| != |rows[j].username|;
  }

  /** An insert that the constraints accept keeps them. */
  lemma InsertKeepsTableValid(rows: seq<UserRow>, row: UserRow)
    requires TableValid(rows) && Violation(rows, row).None?
    ensures TableValid(rows + [Stored(row).value])
  {
  }

  /** The table. `fault` stands for a failure the statement meets that this
      model does not derive from the rows: a lost connection, or a unique
      violation caused by a concurrent insert that committed first. */
  class Users {
    var rows: seq<UserRow>

    ghost predicate Valid()
      reads this
    {
      TableValid(rows)
    }

    constructor ()
      ensures Valid() && rows == []
    {
      rows := [];
    }

    /** `db.insert(users).values({...}).returning(...)`: the row returned is
        the row as stored. */
    method Insert(username: string, email: string, password: string, id: string, createdAt: nat, fault: Option<Error>)
      returns (r: Result<UserRow, Error>)
      requires Valid()
      modifies this
      ensures Valid()
      ensures var row := UserRow(id, username, email, password, createdAt);
              if fault.Some? then r == Failure(fault.value) && rows == old(rows)
              else if Violation(old(rows), row).Some? then r == Failure(Violation(old(rows), row).value) && rows == old(rows)
              else r == Success(Stored(row).value) && rows == old(rows) + [Stored(row).value]
    {
      if fault.Some? {
        return Failure(fault.value);
      }
      var row := UserRow(id, username, email, password, createdAt);
      var violation := Violation(rows, row);
      if violation.Some? {
        return Failure(violation.value);
      }
      InsertKeepsTableValid(rows, row);
      var stored := Stored(row).value;
      rows := rows + [stored];
      return Success(stored);
    }
  }
}
