/**
 * The development-mode authentication service of lib/auth.ts: one-time codes
 * kept in the key-value store under keys derived from the sanitised phone
 * number, the `users` list with its upsert, the signed-in `user`, and the
 * listener list that is told about every change.
 *
 * The key-value store is split by what is stored under each key: `codes`
 * holds the string-valued verification keys, `storedUsers` the `users` key
 * and `storedUser` the `user` key (None when the key is absent). JSON
 * (de)serialisation is the identity. `Date.now()`, `Math.random()` and
 * `new Date().toISOString()` are parameters; a listener is a number, and
 * every call a listener receives is appended to `delivered`.
 */
module Auth {
  import opened Wrappers
  import Text

  datatype User = User(id: string, phoneNumber: string, createdAt: string, lastLoginAt: string)

  datatype AuthState = AuthState(user: Option<User>, isLoading: bool, isAuthenticated: bool)

  datatype Delivery = Delivery(listener: nat, state: AuthState)

  // ---------------------------------------------------------------- keys

  function SanitizeChar(c: char): (r: char)
    ensures Text.IsAsciiAlnum(r) || r == '_'
    ensures Text.IsAsciiAlnum(c) ==> r == c
  {
    if Text.IsAsciiAlnum(c) then c else '_'
  }

  /**
   * The code units one character becomes under `/[^a-zA-Z0-9]/g`. The regular
   * expression has no `u` flag, so it runs over UTF-16 code units: each half of
   * an astral character is replaced on its own.
   */
  function SanitizeUnits(c: char): (r: string)
    ensures |r| == (if Text.IsAstral(c) then 2 else 1)
    ensures !Text.IsAstral(c) ==> r == [SanitizeChar(c)]
    ensures Text.IsAstral(c) ==> r == "__"
  {
    if Text.IsAstral(c) then "__" else [SanitizeChar(c)]
  }

  /**
   * `sanitizePhoneForKey`: every code unit outside `[a-zA-Z0-9]` becomes `_`;
   * the key has the number's JavaScript `length`.
   */
  function SanitizePhoneForKey(phone: string): (r: string)
    ensures |r| == Text.Utf16Length(phone)
    ensures forall i :: 0 <= i < |r| ==> (Text.IsAsciiAlnum(r[i]) || r[i] == '_')
    ensures Text.InBmp(phone) ==> forall i :: 0 <= i < |r| && Text.IsAsciiAlnum(phone[i]) ==> r[i] == phone[i]
    ensures Text.InBmp(phone) ==> forall i :: 0 <= i < |r| && !Text.IsAsciiAlnum(phone[i]) ==> r[i] == '_'
  {
    if phone == [] then [] else SanitizeUnits(phone[0]) + SanitizePhoneForKey(phone[1..])
  }

  /** An emoji in the number becomes two underscores, one per UTF-16 code unit. */
  lemma SanitizeAstral()
    ensures SanitizePhoneForKey("+1\U{1F600}") == "_1__"
  {
    assert "+1\U{1F600}"[1..] == "1\U{1F600}";
    assert "1\U{1F600}"[1..] == "\U{1F600}";
    assert "\U{1F600}"[1..] == "";
  }

  lemma SanitizeIdempotent(phone: string)
    ensures SanitizePhoneForKey(SanitizePhoneForKey(phone)) == SanitizePhoneForKey(phone)
  {
    var s := SanitizePhoneForKey(phone);
    assert Text.InBmp(s);
    var t := SanitizePhoneForKey(s);
    forall i | 0 <= i < |s| ensures t[i] == s[i] {
      if !Text.IsAsciiAlnum(s[i]) {
        assert s[i] == '_';
      }
    }
  }

  const CodeKeyPrefix: string := "verification_code_"
  const TimestampKeyPrefix: string := "verification_code_timestamp_"

  function CodeKey(sanitized: string): string { CodeKeyPrefix + sanitized }
  function TimestampKey(sanitized: string): string { TimestampKeyPrefix + sanitized }

  /**
   * A number's two keys never coincide, and the key prefixes cannot be
   * confused for a sanitised `+1...` number (its first character is `_`, not
   * the `t` of `timestamp_`).
   */
  lemma VerificationKeysSeparate(a: string, b: string)
    requires |b| > 0 && b[0] == '_'
    ensures CodeKey(b) != TimestampKey(b)
    ensures CodeKey(b) != TimestampKey(a)
    ensures CodeKey(a) != CodeKey(b) || a == b
    ensures TimestampKey(a) != TimestampKey(b) || a == b
  {
    assert |CodeKey(b)| < |TimestampKey(b)|;
    assert CodeKey(b)[|CodeKeyPrefix|] != TimestampKey(a)[|CodeKeyPrefix|];
    if CodeKey(a) == CodeKey(b) {
      assert a == CodeKey(a)[|CodeKeyPrefix|..];
    }
    if TimestampKey(a) == TimestampKey(b) {
      assert a == TimestampKey(a)[|TimestampKeyPrefix|..];
    }
  }

  // ---------------------------------------------------------------- codes

  /** `Math.floor(100000 + r * 900000)`: with `r` in [0, 1), a number in [100000, 999999]. */
  function CodeValue(r: real): (c: int)
    ensures 0.0 <= r < 1.0 ==> 100000 <= c <= 999999
  {
    (100000.0 + r * 900000.0).Floor
  }

  /** The drawn code always has six digits. */
  lemma CodeHasSixDigits(r: real)
    requires 0.0 <= r < 1.0
    ensures |Text.NatToDecimal(CodeValue(r))| == 6
  {
    assert Text.Pow10(5) == 100000 by {
      assert Text.Pow10(1) == 10;
      assert Text.Pow10(3) == 1000;
    }
    Text.DecimalLength(CodeValue(r), 6);
  }

  /** The code store after a development-mode send: the code and the send time, as decimal text. */
  function AfterSend(codes: map<string, string>, phone: string, r: real, now: nat): map<string, string>
    requires 0.0 <= r < 1.0
  {
    var san := SanitizePhoneForKey(phone);
    codes[CodeKey(san) := Text.NatToDecimal(CodeValue(r))][TimestampKey(san) := Text.NatToDecimal(now)]
  }

  /** The five minutes, in milliseconds, a code stays valid. */
  const CodeLifetime: int := 5 * 60 * 1000

  datatype CodeCheck = Missing | Expired | Mismatch | Accepted

  /** `!s` for a stored string: absent or empty. */
  predicate Blank(v: Option<string>) { v.None? || v.value == "" }

  function Get(codes: map<string, string>, key: string): Option<string> {
    if key in codes then Some(codes[key]) else None
  }

  /**
   * The development-mode decision of `verifyCode`. A timestamp `parseInt`
   * cannot read gives NaN, and `NaN > 300000` is false, so such a code never
   * expires.
   */
  function CheckCode(codes: map<string, string>, phone: string, code: string, now: int): CodeCheck {
    var san := SanitizePhoneForKey(phone);
    var stored := Get(codes, CodeKey(san));
    var timestamp := Get(codes, TimestampKey(san));
    if Blank(stored) || Blank(timestamp) then Missing
    else
      var t := Text.ParseInt(timestamp.value);
      if t.Some? && now - t.value > CodeLifetime then Expired
      else if stored.value != code then Mismatch
      else Accepted
  }

  /** The verification keys after a check: removed on expiry and on success, kept otherwise. */
  function CodesAfterCheck(codes: map<string, string>, phone: string, c: CodeCheck): map<string, string> {
    var san := SanitizePhoneForKey(phone);
    if c == Expired || c == Accepted then codes - {CodeKey(san), TimestampKey(san)} else codes
  }

  function CheckMessage(c: CodeCheck): string {
    match c
    case Missing => "No verification code found. Please request a new code."
    case Expired => "Verification code has expired. Please request a new code."
    case Mismatch => "Invalid verification code. Please try again."
    case Accepted => "Successfully signed in!"
  }

  /** The code just sent is accepted up to and including five minutes after sending, and expired after that. */
  lemma SentCodeWindow(codes: map<string, string>, phone: string, r: real, sentAt: nat, now: int)
    requires 0.0 <= r < 1.0
    ensures var sent := AfterSend(codes, phone, r, sentAt);
      var code := Text.NatToDecimal(CodeValue(r));
      && (now - sentAt <= CodeLifetime ==> CheckCode(sent, phone, code, now) == Accepted)
      && (now - sentAt > CodeLifetime ==> CheckCode(sent, phone, code, now) == Expired)
  {
    var san := SanitizePhoneForKey(phone);
    AfterSendStores(codes, phone, r, sentAt);
    Text.ParseIntOfNatToDecimal(sentAt);
  }

  /** Within the window, any other input is a mismatch and both keys stay stored. */
  lemma WrongCodeKeepsKeys(codes: map<string, string>, phone: string, r: real, sentAt: nat, now: int, code: string)
    requires 0.0 <= r < 1.0 && now - sentAt <= CodeLifetime
    requires code != Text.NatToDecimal(CodeValue(r))
    ensures var sent := AfterSend(codes, phone, r, sentAt);
      CheckCode(sent, phone, code, now) == Mismatch
      && CodesAfterCheck(sent, phone, Mismatch) == sent
  {
    AfterSendStores(codes, phone, r, sentAt);
    Text.ParseIntOfNatToDecimal(sentAt);
  }

  lemma AfterSendStores(codes: map<string, string>, phone: string, r: real, sentAt: nat)
    requires 0.0 <= r < 1.0
    ensures var san := SanitizePhoneForKey(phone); var sent := AfterSend(codes, phone, r, sentAt);
      && Get(sent, CodeKey(san)) == Some(Text.NatToDecimal(CodeValue(r)))
      && Get(sent, TimestampKey(san)) == Some(Text.NatToDecimal(sentAt))
  {
    var san := SanitizePhoneForKey(phone);
    if |san| > 0 {
      assert CodeKey(san) != TimestampKey(san) by {
        assert |CodeKey(san)| < |TimestampKey(san)|;
      }
    } else {
      assert |CodeKey(san)| < |TimestampKey(san)|;
    }
  }

  /** A check that is not Missing removes nothing unless it is Expired or Accepted; a timestamp that does not parse never expires. */
  lemma UnreadableTimestampNeverExpires(codes: map<string, string>, phone: string, code: string, now: int)
    requires var ts := Get(codes, TimestampKey(SanitizePhoneForKey(phone))); ts.Some? && Text.ParseInt(ts.value).None?
    ensures CheckCode(codes, phone, code, now) != Expired
  {
  }

  // ---------------------------------------------------------------- users

  ghost predicate UniqueUserIds(users: seq<User>) {
    forall i, j :: 0 <= i < j < |users| ==> users[i].id != users[j].id
  }

  /** `users.findIndex(u => u.id === id)`, or -1. */
  function FindIndexById(users: seq<User>, id: string): (k: int)
    ensures -1 <= k < |users|
    ensures k >= 0 ==> users[k].id == id && forall j :: 0 <= j < k ==> users[j].id != id
    ensures k == -1 <==> forall j :: 0 <= j < |users| ==> users[j].id != id
  {
    if users == [] then -1
    else if users[0].id == id then 0
    else
      var k := FindIndexById(users[1..], id);
      if k == -1 then -1 else k + 1
  }

  /** `saveUser`'s list update: replace the entry with the same id in place, otherwise append. */
  function Upsert(users: seq<User>, user: User): (r: seq<User>)
    ensures FindIndexById(users, user.id) >= 0 ==>
      |r| == |users| && r[FindIndexById(users, user.id)] == user
      && forall j :: 0 <= j < |users| && j != FindIndexById(users, user.id) ==> r[j] == users[j]
    ensures FindIndexById(users, user.id) == -1 ==> r == users + [user]
  {
    var k := FindIndexById(users, user.id);
    if k >= 0 then users[k := user] else users + [user]
  }

  /** The user list keeps one entry per id across upserts, and the saved user is in it. */
  lemma UpsertKeepsIdsUnique(users: seq<User>, user: User)
    requires UniqueUserIds(users)
    ensures UniqueUserIds(Upsert(users, user))
    ensures user in Upsert(users, user)
    ensures |Upsert(users, user)| == |users| || |Upsert(users, user)| == |users| + 1
  {
    var k := FindIndexById(users, user.id);
    var r := Upsert(users, user);
    if k >= 0 {
      assert r[k] == user;
    } else {
      assert r[|users|] == user;
    }
  }

  /** The index of the first user with that phone number, or -1. */
  function FindIndexByPhone(users: seq<User>, phone: string): (k: int)
    ensures -1 <= k < |users|
    ensures k >= 0 ==> users[k].phoneNumber == phone && forall j :: 0 <= j < k ==> users[j].phoneNumber != phone
    ensures k == -1 <==> forall j :: 0 <= j < |users| ==> users[j].phoneNumber != phone
  {
    if users == [] then -1
    else if users[0].phoneNumber == phone then 0
    else
      var k := FindIndexByPhone(users[1..], phone);
      if k == -1 then -1 else k + 1
  }

  /** `users.find(u => u.phoneNumber === phone) || null`: the first match. */
  function FindByPhone(users: seq<User>, phone: string): Option<User> {
    var k := FindIndexByPhone(users, phone);
    if k >= 0 then Some(users[k]) else None
  }

  function UsersOrEmpty(stored: Option<seq<User>>): seq<User> {
    stored.GetOr([])
  }

  /**
   * The user a successful verification signs in: the first stored user with
   * that phone number, with `lastLoginAt` refreshed, or a new user with the
   * given id. `createUser` reads the clock twice, once for `createdAt` and once
   * for `lastLoginAt`; those are the two readings `createdIso` and `loginIso`.
   */
  function SignInUser(stored: Option<seq<User>>, phone: string, newId: string, createdIso: string, loginIso: string): (u: User)
    ensures u.phoneNumber == phone && u.lastLoginAt == loginIso
  {
    var found := FindByPhone(UsersOrEmpty(stored), phone);
    if found.Some? then found.value.(lastLoginAt := loginIso) else User(newId, phone, createdIso, loginIso)
  }

  /** A returning user keeps id and creation date; a new one is created at the first clock reading. */
  lemma SignInUserIdentity(stored: Option<seq<User>>, phone: string, newId: string, createdIso: string, loginIso: string)
    ensures var found := FindByPhone(UsersOrEmpty(stored), phone);
      var u := SignInUser(stored, phone, newId, createdIso, loginIso);
      && (found.Some? ==> u.id == found.value.id && u.createdAt == found.value.createdAt)
      && (found.None? ==> u.id == newId && u.createdAt == createdIso)
  {
  }

  // ---------------------------------------------------------------- listeners

  /** What one `notifyListeners` call delivers: the state, to every listener, in subscription order. */
  function Deliveries(listeners: seq<nat>, state: AuthState): (r: seq<Delivery>)
    ensures |r| == |listeners|
    ensures forall i :: 0 <= i < |r| ==> r[i] == Delivery(listeners[i], state)
  {
    seq(|listeners|, i requires 0 <= i < |listeners| => Delivery(listeners[i], state))
  }

  /** `listeners.filter(l => l !== listener)` */
  function Without(listeners: seq<nat>, listener: nat): (r: seq<nat>)
    ensures listener !in r
    ensures forall l :: l != listener ==> (l in r <==> l in listeners)
    ensures |r| <= |listeners|
  {
    if listeners == [] then []
    else (if listeners[0] == listener then [] else [listeners[0]]) + Without(listeners[1..], listener)
  }

  /** Removing a listener keeps the others in their order. */
  lemma {:induction false} WithoutKeepsOrder(a: seq<nat>, b: seq<nat>, listener: nat)
    ensures Without(a + b, listener) == Without(a, listener) + Without(b, listener)
  {
    if a == [] {
      assert a + b == b;
    } else {
      assert (a + b)[0] == a[0];
      assert (a + b)[1..] == a[1..] + b;
      WithoutKeepsOrder(a[1..], b, listener);
    }
  }

  function StateOf(user: Option<User>): AuthState {
    AuthState(user, false, user.Some?)
  }

  class AuthService {
    var codes: map<string, string>
    var storedUsers: Option<seq<User>>
    var storedUser: Option<User>
    var user: Option<User>
    var listeners: seq<nat>
    var delivered: seq<Delivery>

    ghost predicate Valid()
      reads this
    {
      storedUsers.Some? ==> UniqueUserIds(storedUsers.value)
    }

    /** The service over the store's current contents, before `initializeAuth` has run. */
    constructor (codes: map<string, string>, storedUsers: Option<seq<User>>, storedUser: Option<User>)
      requires storedUsers.Some? ==> UniqueUserIds(storedUsers.value)
      ensures Valid()
      ensures this.codes == codes && this.storedUsers == storedUsers && this.storedUser == storedUser
      ensures user == None && listeners == [] && delivered == []
    {
      this.codes := codes;
      this.storedUsers := storedUsers;
      this.storedUser := storedUser;
      user := None;
      listeners := [];
      delivered := [];
    }

    /** `getCurrentUser`: the user the announced state carries. */
    function GetCurrentUser(): (r: Option<User>)
      reads this
      ensures r == StateOf(user).user
    {
      user
    }

    /** `isAuthenticated`: `!!this.user`, the flag the announced state carries. */
    function IsAuthenticated(): (r: bool)
      reads this
      ensures r <==> GetCurrentUser().Some?
      ensures r == StateOf(user).isAuthenticated
    {
      user.Some?
    }

    /** `notifyListeners`: every listener receives the current state. */
    method NotifyListeners()
      modifies this`delivered
      ensures delivered == old(delivered) + Deliveries(listeners, StateOf(user))
    {
      var state := AuthState(user, false, user.Some?);
      var i := 0;
      while i < |listeners|
        invariant 0 <= i <= |listeners|
        invariant delivered == old(delivered) + Deliveries(listeners[..i], state)
      {
        assert Deliveries(listeners[..i + 1], state) == Deliveries(listeners[..i], state) + [Delivery(listeners[i], state)];
        delivered := delivered + [Delivery(listeners[i], state)];
        i := i + 1;
      }
      assert listeners[..i] == listeners;
    }

    /** `initializeAuth`: restore the stored user, if any, and tell the listeners. */
    method InitializeAuth()
      modifies this`user, this`delivered
      ensures storedUser.Some? ==> user == storedUser && delivered == old(delivered) + Deliveries(listeners, StateOf(storedUser))
      ensures storedUser.None? ==> user == old(user) && delivered == old(delivered)
    {
      if storedUser.Some? {
        user := storedUser;
        NotifyListeners();
      }
    }

    /** `subscribe`: the listener is appended and called once at once with the current state. */
    method Subscribe(listener: nat)
      modifies this`listeners, this`delivered
      ensures listeners == old(listeners) + [listener]
      ensures delivered == old(delivered) + [Delivery(listener, StateOf(user))]
    {
      listeners := listeners + [listener];
      delivered := delivered + [Delivery(listener, AuthState(user, false, user.Some?))];
    }

    /** The function `subscribe` returns: every registration of the listener goes. */
    method Unsubscribe(listener: nat)
      modifies this`listeners
      ensures listeners == Without(old(listeners), listener)
    {
      listeners := Without(listeners, listener);
    }

    /** Development-mode `sendVerificationCode`, with the `Math.random()` draw and `Date.now()` as parameters. */
    method SendVerificationCode(phone: string, r: real, now: nat) returns (success: bool, message: string)
      requires 0.0 <= r < 1.0
      modifies this`codes
      ensures codes == AfterSend(old(codes), phone, r, now)
      ensures success && message == "Verification code sent to " + phone + ". Check console for demo code."
    {
      var code := Text.NatToDecimal(CodeValue(r));
      var sanitized := SanitizePhoneForKey(phone);
      codes := codes[CodeKey(sanitized) := code];
      codes := codes[TimestampKey(sanitized) := Text.NatToDecimal(now)];
      success := true;
      message := "Verification code sent to " + phone + ". Check console for demo code.";
    }

    /** `getUserByPhone` */
    method GetUserByPhone(phone: string) returns (r: Option<User>)
      ensures r == (if storedUsers.None? then None else FindByPhone(storedUsers.value, phone))
    {
      if storedUsers.None? {
        return None;
      }
      r := FindByPhone(storedUsers.value, phone);
    }

    /** `saveUser` */
    method SaveUser(u: User)
      requires Valid()
      modifies this`storedUsers
      ensures Valid()
      ensures storedUsers == Some(Upsert(UsersOrEmpty(old(storedUsers)), u))
    {
      var users := if storedUsers.Some? then storedUsers.value else [];
      UpsertKeepsIdsUnique(users, u);
      var existingIndex := FindIndexById(users, u.id);
      if existingIndex >= 0 {
        users := users[existingIndex := u];
      } else {
        users := users + [u];
      }
      storedUsers := Some(users);
    }

    /** The lookups and tests of development-mode `verifyCode`, in the source's order; nothing changes. */
    method CheckStoredCode(phone: string, code: string, now: int) returns (c: CodeCheck)
      ensures c == CheckCode(codes, phone, code, now)
    {
      var sanitized := SanitizePhoneForKey(phone);
      var storedCode := Get(codes, CodeKey(sanitized));
      var timestamp := Get(codes, TimestampKey(sanitized));
      if Blank(storedCode) || Blank(timestamp) {
        return Missing;
      }
      var parsed := Text.ParseInt(timestamp.value);
      if parsed.Some? && now - parsed.value > 5 * 60 * 1000 {
        return Expired;
      }
      if storedCode.value != code {
        return Mismatch;
      }
      return Accepted;
    }

    /** Both verification keys of the number removed from the store. */
    method ForgetCode(phone: string)
      modifies this`codes
      ensures codes == old(codes) - {CodeKey(SanitizePhoneForKey(phone)), TimestampKey(SanitizePhoneForKey(phone))}
    {
      var sanitized := SanitizePhoneForKey(phone);
      codes := codes - {CodeKey(sanitized)};
      codes := codes - {TimestampKey(sanitized)};
    }

    /**
     * Development-mode `verifyCode`, with `Date.now()`, the two ISO clock readings and the
     * new user's id as parameters. Besides `success` and `message` it returns
     * which branch was taken, and the user signed in.
     */
    method VerifyCode(phone: string, code: string, now: int, createdIso: string, loginIso: string, newId: string)
      returns (success: bool, message: string, signedIn: Option<User>, outcome: CodeCheck)
      requires Valid()
      modifies this`codes, this`storedUsers, this`user, this`storedUser, this`delivered
      ensures Valid()
      ensures outcome == CheckCode(old(codes), phone, code, now)
      ensures success == (outcome == Accepted)
      ensures message == CheckMessage(outcome)
      ensures codes == CodesAfterCheck(old(codes), phone, outcome)
      ensures listeners == old(listeners)
      ensures !success ==> signedIn == None && user == old(user) && storedUser == old(storedUser)
      ensures !success ==> storedUsers == old(storedUsers) && delivered == old(delivered)
      ensures success ==> signedIn == Some(SignInUser(old(storedUsers), phone, newId, createdIso, loginIso))
      ensures success ==> user == signedIn && storedUser == signedIn
      ensures success ==> storedUsers == Some(Upsert(UsersOrEmpty(old(storedUsers)), signedIn.value))
      ensures success ==> delivered == old(delivered) + Deliveries(listeners, StateOf(signedIn))
    {
      outcome := CheckStoredCode(phone, code, now);
      if outcome == Expired || outcome == Accepted {
        ForgetCode(phone);
      }
      success := outcome == Accepted;
      message := CheckMessage(outcome);
      signedIn := None;
      if success {
        var u := SignIn(phone, createdIso, loginIso, newId);
        signedIn := Some(u);
      }
    }

    /** The tail of a successful `verifyCode`: get or create the user, save it, make it current, notify. */
    method SignIn(phone: string, createdIso: string, loginIso: string, newId: string) returns (u: User)
      requires Valid()
      modifies this`storedUsers, this`user, this`storedUser, this`delivered
      ensures Valid()
      ensures u == SignInUser(old(storedUsers), phone, newId, createdIso, loginIso)
      ensures user == Some(u) && storedUser == Some(u)
      ensures storedUsers == Some(Upsert(UsersOrEmpty(old(storedUsers)), u))
      ensures delivered == old(delivered) + Deliveries(listeners, StateOf(Some(u)))
    {
      var found := GetUserByPhone(phone);
      if found.None? {
        u := User(newId, phone, createdIso, loginIso);
      } else {
        u := found.value.(lastLoginAt := loginIso);
      }
      SaveUser(u);
      user := Some(u);
      storedUser := Some(u);
      NotifyListeners();
    }

    /** `signOut`: no current user, the `user` key removed, listeners told. */
    method SignOut()
      modifies this`user, this`storedUser, this`delivered
      ensures user == None && storedUser == None
      ensures delivered == old(delivered) + Deliveries(listeners, AuthState(None, false, false))
    {
      user := None;
      storedUser := None;
      NotifyListeners();
    }
  }
}
