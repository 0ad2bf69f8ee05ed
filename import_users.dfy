/**
  The script that creates one Auth0 user per row of the logins file: an access token first,
  then one `POST /api/v2/users` per row, in file order, each failure logged and skipped.
  The HTTP server is a parameter: `server(i, request)` is its reply to the i-th request,
  None where the call fails and `createUser` returns null.
*/
module ImportUsers {
  import opened Wrappers
  import OrderProvider

  /** A row of the logins file (columns "Username", "Password", "Customer ID"). */
  datatype UserRow = UserRow(username: string, password: string, customerId: string)

  datatype UserMetadata = UserMetadata(customerId: string)

  /** The JSON body of the create-user call. */
  datatype CreateUserPayload = CreateUserPayload(
    connection: string,
    email: string,
    password: string,
    username: string,
    name: string,
    userMetadata: UserMetadata)

  /** One create-user call: its URL, its bearer header and its body. */
  datatype Request = Request(url: string, authorization: string, payload: CreateUserPayload)

  /** The user record the server sends back for a created user. */
  datatype Created = Created(userId: string)

  /** How a run ends: the file is missing, the token request failed, or every row was tried. */
  datatype Run = CsvMissing | TokenFailed | Completed(results: seq<Option<Created>>)

  const CONNECTION := "amazon-tracker-database"
  const EMAIL_DOMAIN := "@example.com"

  /** The body `createUser` posts for a row. */
  function Payload(row: UserRow): (p: CreateUserPayload)
    ensures p.email == row.username + "@example.com"
    ensures p.username == row.username && p.name == row.username
    ensures p.password == row.password && p.userMetadata.customerId == row.customerId
    ensures p.connection == CONNECTION
  {
    CreateUserPayload(CONNECTION, row.username + EMAIL_DOMAIN, row.password, row.username, row.username,
                      UserMetadata(row.customerId))
  }

  function UsersUrl(domain: string): string {
    "https://" + domain + "/api/v2/users"
  }

  /** `POST https://<domain>/api/v2/users` with the management token as bearer and the row's body. */
  function CreateUserRequest(domain: string, token: string, row: UserRow): (r: Request)
    ensures r.url == "https://" + domain + "/api/v2/users"
    ensures r.authorization == "Bearer " + token
    ensures r.payload == Payload(row)
  {
    Request(UsersUrl(domain), "Bearer " + token, Payload(row))
  }

  /**
    Signing in with the generated address gives back the imported username, so the frontend
    finds the customer again: the e-mail prefix is the username whenever it has no '@'. The
    rest of the payload carries the row's password and customer id and the fixed connection.
  */
  lemma UsernameRoundTrip(row: UserRow)
    requires '@' !in row.username
    ensures var p := Payload(row);
      && OrderProvider.UsernameFromUser(Some(OrderProvider.User(Some(p.email)))) == Some(p.username)
      && p.username == row.username && p.name == row.username
      && p.password == row.password
      && p.userMetadata.customerId == row.customerId
      && p.connection == CONNECTION
  {
    var email := Payload(row).email;
    assert email == row.username + "@" + "example.com";
    OrderProvider.PrefixOfAddress(row.username, "example.com");
  }

  /** A username with an '@' does not survive: only the text before its first '@' comes back. */
  lemma UsernameWithAtLost(row: UserRow)
    requires '@' in row.username
    ensures var derived := OrderProvider.UsernameFromUser(Some(OrderProvider.User(Some(Payload(row).email))));
      && derived == Some(OrderProvider.EmailPrefix(row.username))
      && derived != Some(row.username)
  {
    var email := Payload(row).email;
    var prefix := OrderProvider.EmailPrefix(row.username);
    assert prefix != row.username;
    PrefixWithin(row.username, EMAIL_DOMAIN);
  }

  /** When `name` has an '@', the prefix of `name + rest` is the prefix of `name`. */
  lemma {:induction false} PrefixWithin(name: string, rest: string)
    requires '@' in name
    ensures OrderProvider.EmailPrefix(name + rest) == OrderProvider.EmailPrefix(name)
    decreases |name|
  {
    var email := name + rest;
    assert email[0] == name[0];
    if name[0] != '@' {
      assert email[1..] == name[1..] + rest;
      assert '@' in name[1..] by {
        var k :| 0 <= k < |name| && name[k] == '@';
        assert name[1..][k - 1] == '@';
      }
      PrefixWithin(name[1..], rest);
    }
  }

  /**
    `importUsers`: without the file nothing happens; without a token nothing is sent; otherwise
    exactly one request per row, in file order, and a failed row does not stop the next one.
  */
  method ImportUsers(csvFound: bool, domain: string, token: Option<string>, rows: seq<UserRow>,
                     server: (nat, Request) -> Option<Created>)
    returns (run: Run, sent: seq<Request>)
    ensures !csvFound ==> run == CsvMissing && sent == []
    ensures csvFound && token.None? ==> run == TokenFailed && sent == []
    ensures csvFound && token.Some? ==>
      && run.Completed?
      && |sent| == |rows| == |run.results|
      && (forall i :: 0 <= i < |rows| ==> sent[i] == CreateUserRequest(domain, token.value, rows[i]))
      && (forall i :: 0 <= i < |rows| ==> run.results[i] == server(i, sent[i]))
  {
    if !csvFound {
      return CsvMissing, [];
    }
    if token.None? {
      return TokenFailed, [];
    }
    sent := [];
    var results := [];
    for i := 0 to |rows|
      invariant |sent| == i && |results| == i
      invariant forall j :: 0 <= j < i ==> sent[j] == CreateUserRequest(domain, token.value, rows[j])
      invariant forall j :: 0 <= j < i ==> results[j] == server(j, sent[j])
    {
      var request := CreateUserRequest(domain, token.value, rows[i]);
      var created := server(i, request);
      sent := sent + [request];
      results := results + [created];
    }
    run := Completed(results);
  }
}
