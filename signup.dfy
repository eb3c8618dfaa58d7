/** Registration (SignupActivity): the ordered checks on the trimmed form
    fields, the record written under users/<uid> and the empty
    userInteractions/<uid> node. */
module Signup {
  import opened Common
  import opened Users
  import Search

  /** The four text fields as typed. */
  datatype Form = Form(name: string, email: string, password: string, confirmPassword: string)

  /** What registerUser does: show a message and stop, or ask the
      authentication service to create the account. */
  datatype Outcome = Rejected(message: string) | CreateAccount(name: string, email: string, password: string)

  const FillAllFields := "Please fill all fields"
  const PasswordsDiffer := "Passwords do not match"
  const PasswordTooShort := "Password must be at least 6 characters"
  const MinPasswordLength := 6

  predicate AnyFieldBlank(f: Form) {
    Trim(f.name) == [] || Trim(f.email) == [] || Trim(f.password) == [] || Trim(f.confirmPassword) == []
  }

  /** The checks run in order and the first that fails decides the message;
      the account is created exactly when all three pass, from the trimmed
      name, email and password. */
  function RegisterUser(f: Form): (o: Outcome)
    ensures AnyFieldBlank(f) ==> o == Rejected(FillAllFields)
    ensures !AnyFieldBlank(f) && Trim(f.password) != Trim(f.confirmPassword) ==> o == Rejected(PasswordsDiffer)
    ensures !AnyFieldBlank(f) && Trim(f.password) == Trim(f.confirmPassword) && |Trim(f.password)| < MinPasswordLength ==>
      o == Rejected(PasswordTooShort)
    ensures o.CreateAccount? <==>
      !AnyFieldBlank(f) && Trim(f.password) == Trim(f.confirmPassword) && |Trim(f.password)| >= MinPasswordLength
    ensures o.CreateAccount? ==> o == CreateAccount(Trim(f.name), Trim(f.email), Trim(f.password))
  {
    var name, email := Trim(f.name), Trim(f.email);
    var password, confirmPassword := Trim(f.password), Trim(f.confirmPassword);
    if name == [] || email == [] || password == [] || confirmPassword == [] then Rejected(FillAllFields)
    else if password != confirmPassword then Rejected(PasswordsDiffer)
    else if |password| < MinPasswordLength then Rejected(PasswordTooShort)
    else CreateAccount(name, email, password)
  }

  /** A field holding only whitespace counts as empty, whatever the others
      hold. */
  lemma BlankFieldRejected(f: Form)
    requires || WhitespaceBetween(f.name, 0, |f.name|) || WhitespaceBetween(f.email, 0, |f.email|)
             || WhitespaceBetween(f.password, 0, |f.password|)
             || WhitespaceBetween(f.confirmPassword, 0, |f.confirmPassword|)
    ensures RegisterUser(f) == Rejected(FillAllFields)
  {
    TrimEmptyIff(f.name);
    TrimEmptyIff(f.email);
    TrimEmptyIff(f.password);
    TrimEmptyIff(f.confirmPassword);
  }

  /** Whitespace around the passwords is ignored: a password of at least
      six characters, neither starting nor ending with whitespace, typed
      twice with different whitespace padding, is accepted as typed. */
  lemma PaddedPasswordAccepted(name: string, email: string, password: string,
                               pad1: string, pad2: string, pad3: string, pad4: string)
    requires Trim(name) != [] && Trim(email) != []
    requires |password| >= MinPasswordLength
    requires !IsWhitespace(password[0]) && !IsWhitespace(password[|password| - 1])
    requires WhitespaceBetween(pad1, 0, |pad1|) && WhitespaceBetween(pad2, 0, |pad2|)
    requires WhitespaceBetween(pad3, 0, |pad3|) && WhitespaceBetween(pad4, 0, |pad4|)
    ensures RegisterUser(Form(name, email, pad1 + password + pad2, pad3 + password + pad4))
         == CreateAccount(Trim(name), Trim(email), password)
  {
    TrimPadded(pad1, password, pad2);
    TrimPadded(pad3, password, pad4);
  }

  // ---------------------------------------------------------------------------
  // The records written after the account exists
  // ---------------------------------------------------------------------------

  /** A value in a record: text, a whole number, a decimal, or the server's
      timestamp placeholder (ServerValue.TIMESTAMP). */
  datatype Field = Text(text: string) | Count(n: Long) | Score(x: real) | ServerTimestamp

  const CounterKeys: set<string> := {"followersCount", "followingCount", "postsCount", "likesReceived", "profileViews"}

  /** The userMap of saveUserToDatabase. */
  function NewUserRecord(name: string, email: string): (m: map<string, Field>)
    ensures m.Keys == CounterKeys + {"fullName", "fullNameLower", "email", "popularityScore", "lastActive"}
    ensures m["fullName"] == Text(name) && m["email"] == Text(email)
    ensures m["fullNameLower"] == Text(Lower(name))
    ensures forall k | k in CounterKeys :: m[k] == Count(0)
    ensures m["popularityScore"] == Score(0.0) && m["lastActive"] == ServerTimestamp
  {
    map["fullName" := Text(name), "fullNameLower" := Text(Lower(name)), "email" := Text(email),
        "followersCount" := Count(0), "followingCount" := Count(0), "postsCount" := Count(0),
        "likesReceived" := Count(0), "profileViews" := Count(0),
        "popularityScore" := Score(0.0), "lastActive" := ServerTimestamp]
  }

  function TextOr(m: map<string, Field>, k: string, default: string): string {
    if k in m && m[k].Text? then m[k].text else default
  }

  /** A stored whole number; the timestamp placeholder reads back as the
      server's time of the write. */
  function LongOr(m: map<string, Field>, k: string, serverTime: Long): Long {
    if k !in m then 0
    else match m[k]
      case Count(n) => n
      case ServerTimestamp => serverTime
      case _ => 0
  }

  function RealOr(m: map<string, Field>, k: string): real {
    if k in m && m[k].Score? then m[k].x else 0.0
  }

  /** How getValue(User::class.java) reads back a record made of these
      fields: keys it knows are copied, missing keys keep the defaults of
      the no-argument constructor. */
  function ReadUser(m: map<string, Field>, serverTime: Long): User {
    User(TextOr(m, "userId", ""), TextOr(m, "fullName", ""), TextOr(m, "email", ""),
         TextOr(m, "fullNameLower", ""),
         LongOr(m, "followersCount", serverTime), LongOr(m, "followingCount", serverTime),
         LongOr(m, "postsCount", serverTime), LongOr(m, "likesReceived", serverTime),
         LongOr(m, "profileViews", serverTime), RealOr(m, "popularityScore"),
         LongOr(m, "lastActive", serverTime), map[], map[])
  }

  /** A new user reads back with the typed name, its lower-cased form for
      search, zero counters and no followers or following. The record has no
      userId key, so userId reads back empty. */
  lemma NewUserReadsBack(name: string, email: string, serverTime: Long)
    ensures ReadUser(NewUserRecord(name, email), serverTime)
      == User("", name, email, Lower(name), 0, 0, 0, 0, 0, 0.0, serverTime, map[], map[])
  {
  }

  /** A new user is found by the account search for any query whose
      lower-cased form occurs in the lower-cased name. */
  lemma NewUserIsSearchable(name: string, email: string, serverTime: Long, query: string)
    requires Lower(name) != [] && Contains(Lower(name), Lower(query))
    ensures Search.IsMatch(ReadUser(NewUserRecord(name, email), serverTime), Lower(query))
  {
    NewUserReadsBack(name, email, serverTime);
    LowerIdempotent(name);
  }

  const InteractionKeys: set<string> := {"searchHistory", "profileVisits", "interactions", "preferences"}

  /** The interactionsMap of createUserInteractionsNode: four empty maps. */
  function InteractionsNode(): (m: map<string, map<string, Field>>)
    ensures m.Keys == InteractionKeys && |m.Keys| == 4
    ensures forall k | k in m :: m[k] == map[]
  {
    var m := map["searchHistory" := map[], "profileVisits" := map[], "interactions" := map[], "preferences" := map[]];
    assert "searchHistory"[0] != "profileVisits"[0] && "interactions"[0] != "preferences"[0];
    assert "searchHistory" != "interactions" && "profileVisits" != "preferences";
    m
  }
}
