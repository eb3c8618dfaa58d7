/** The welcome line of the home screen (HomeFragment.loadUserData and
    handleFallbackName). */
module Home {
  import opened Common
  import opened Users

  /** What the authentication service knows about the signed-in account. */
  datatype Account = Account(displayName: Option<string>, email: Option<string>)

  /** How the read of users/<uid> ended: a snapshot whose getValue gave a
      record or null, or a deserialisation error or a cancelled read. */
  datatype UserRead = Decoded(record: Option<User>) | ReadFailed

  /** handleFallbackName's chain: the account's display name, else the part
      of its email before '@', else "User". */
  function FallbackName(account: Account): (name: string)
    ensures account.displayName.Some? ==> name == account.displayName.value
    ensures account.displayName.None? && account.email.Some? ==> name == SubstringBefore(account.email.value, '@')
    ensures account.displayName.None? && account.email.None? ==> name == "User"
  {
    match account.displayName
    case Some(n) => n
    case None =>
      match account.email
      case Some(e) => SubstringBefore(e, '@')
      case None => "User"
  }

  /** The name onDataChange and the error paths use: the record's fullName
      whenever a record was read, even an empty one; the fallback chain
      otherwise. */
  function DisplayName(read: UserRead, account: Account): (name: string)
    ensures read.Decoded? && read.record.Some? ==> name == read.record.value.fullName
    ensures read.ReadFailed? || read.record.None? ==> name == FallbackName(account)
  {
    match read
    case Decoded(Some(u)) => u.fullName
    case _ => FallbackName(account)
  }

  function WelcomeText(name: string): string {
    "Welcome, " + name + "!"
  }

  const GuestWelcome := "Welcome, Guest!"

  /** The welcome line after loadUserData, or None when the view is gone
      (_binding is null) and nothing is written. */
  function Welcome(signedIn: Option<Account>, read: UserRead, bound: bool): (text: Option<string>)
    ensures !bound ==> text == None
    ensures bound && signedIn.None? ==> text == Some(GuestWelcome)
    ensures bound && signedIn.Some? ==> text == Some(WelcomeText(DisplayName(read, signedIn.value)))
  {
    if !bound then None
    else match signedIn
      case None => Some(GuestWelcome)
      case Some(account) => Some(WelcomeText(DisplayName(read, account)))
  }

  /** The welcome line carries the name between a fixed prefix and "!", so
      different names give different lines. */
  lemma WelcomeTextNamesTheUser(name: string)
    ensures var t := WelcomeText(name);
      |t| == |name| + 10 && t[..9] == "Welcome, " && t[9..|t| - 1] == name && t[|t| - 1] == '!'
  {
  }

  lemma WelcomeTextInjective(a: string, b: string)
    requires WelcomeText(a) == WelcomeText(b)
    ensures a == b
  {
    WelcomeTextNamesTheUser(a);
    WelcomeTextNamesTheUser(b);
  }

  /** A signed-in user whose record cannot be read is greeted with the
      fallback name, never the record's: the error paths skip fullName. */
  lemma FailedReadSkipsFullName(account: Account)
    ensures Welcome(Some(account), ReadFailed, true) == Some(WelcomeText(FallbackName(account)))
    ensures account.displayName.None? && account.email.Some? ==>
      '@' !in DisplayName(ReadFailed, account) && DisplayName(ReadFailed, account) <= account.email.value
  {
  }

  /** Only the guest line says "Guest" in place of a name, unless the name
      itself is "Guest". */
  lemma GuestOnlyWithoutAccount(signedIn: Option<Account>, read: UserRead)
    requires Welcome(signedIn, read, true) == Some(GuestWelcome)
    ensures signedIn.None? || DisplayName(read, signedIn.value) == "Guest"
  {
    if signedIn.Some? {
      WelcomeTextInjective(DisplayName(read, signedIn.value), "Guest");
    }
  }
}
