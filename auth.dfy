/** The single-administrator gate: registration is open only while no administrator
    exists, and login answers the same generic failure for an unknown address, an
    account from another provider and a wrong password. Password hashing stands for
    bcrypt: the model keeps bcrypt's limit on how much of a password counts, not its
    cipher. */
module Auth {
  import opened Seqs

  datatype Provider = Local | Google | Github

  /** A stored password hash: the hashed text and the random salt it was made with. */
  datatype Digest = Digest(secret: string, salt: nat)

  datatype Admin = Admin(id: nat, email: string, password: Digest, provider: Provider)

  /** A handler's answer; `session` is the admin id put in the session cookie, when one
      is issued, and `email` the address a successful registration echoes back. */
  datatype AuthReply = AuthReply(status: nat, message: string, session: Option<nat>, email: Option<string>)

  const InvalidCredentials := "Invalid credentials"
  const RegistrationDisabled := "Registration disabled"
  const CredentialsRequired := "Email and password required"

  /** bcrypt reads at most this many bytes of a password and ignores the rest. */
  const MaxPasswordLength := 72

  /** The part of a password bcrypt uses. */
  function Significant(password: string): (r: string)
    ensures |r| <= MaxPasswordLength && |r| <= |password| && r == password[..|r|]
    ensures |password| <= MaxPasswordLength ==> r == password
    ensures |password| > MaxPasswordLength ==> |r| == MaxPasswordLength
  {
    if |password| <= MaxPasswordLength then password else password[..MaxPasswordLength]
  }

  /** `bcrypt.hash(password, 10)`, with the random salt given as a parameter. Apart
      from the length limit the hash is taken as ideal: it keeps the significant part
      of the password and the salt apart from each other. */
  function Hash(password: string, salt: nat): (d: Digest)
    ensures d.salt == salt && |d.secret| <= MaxPasswordLength
  {
    Digest(Significant(password), salt)
  }

  /** `bcrypt.compare(password, digest)`. */
  predicate Matches(password: string, d: Digest) {
    d.secret == Significant(password)
  }

  /** A password matches its own hash, whatever the salt; another password matches
      exactly when bcrypt's first 72 characters of both agree. */
  lemma HashMatches(password: string, other: string, salt: nat)
    ensures Matches(password, Hash(password, salt))
    ensures Matches(other, Hash(password, salt)) <==> Significant(other) == Significant(password)
    ensures |password| <= MaxPasswordLength && |other| <= MaxPasswordLength ==>
      (Matches(other, Hash(password, salt)) <==> other == password)
  {
  }

  /** Two passwords that agree on their first 72 characters match each other's hash:
      whatever follows is never checked. */
  lemma LongPasswordsCollide(password: string, other: string, salt: nat)
    requires |password| >= MaxPasswordLength && |other| >= MaxPasswordLength
    requires password[..MaxPasswordLength] == other[..MaxPasswordLength]
    ensures Matches(other, Hash(password, salt))
  {
  }

  /** `j` is the admin `Admin.findOne({ email })` returns. */
  predicate FirstWithEmail(admins: seq<Admin>, email: string, j: int) {
    && 0 <= j < |admins| && admins[j].email == email
    && forall i :: 0 <= i < j ==> admins[i].email != email
  }

  class AdminStore {
    var admins: seq<Admin>

    constructor(initial: seq<Admin>)
      ensures admins == initial
    {
      admins := initial;
    }

    /** `registerAdmin`: 403 once any admin exists, before the body is looked at; 400
        without an email or a password; otherwise one local admin holding the hash of
        the password, and 201 with a session. */
    method Register(email: string, password: string, salt: nat) returns (r: AuthReply)
      modifies this
      ensures old(admins) != [] ==> admins == old(admins) && r == AuthReply(403, RegistrationDisabled, None, None)
      ensures old(admins) == [] && (email == "" || password == "") ==>
        admins == [] && r == AuthReply(400, CredentialsRequired, None, None)
      ensures old(admins) == [] && email != "" && password != "" ==>
        && admins == [Admin(0, email, Hash(password, salt), Local)]
        && r == AuthReply(201, "Admin registered", Some(0), Some(email))
    {
      if |admins| > 0 {
        return AuthReply(403, RegistrationDisabled, None, None);
      }
      if email == "" || password == "" {
        return AuthReply(400, CredentialsRequired, None, None);
      }
      // The duplicate check answers 409 when an admin has this email; with no
      // admins at all it never does.
      var existing := Find(admins, (a: Admin) => a.email == email);
      assert existing.None?;
      var admin := Admin(0, email, Hash(password, salt), Local);
      admins := admins + [admin];
      r := AuthReply(201, "Admin registered", Some(admin.id), Some(admin.email));
    }

    /** `loginAdmin`: a session only for a local admin whose stored hash matches;
        every failure is the same 401. */
    method Login(email: string, password: string) returns (r: AuthReply)
      ensures r.status == 200 || r == AuthReply(401, InvalidCredentials, None, None)
      ensures r.status == 200 <==>
        exists j :: FirstWithEmail(admins, email, j) && admins[j].provider == Local && Matches(password, admins[j].password)
      ensures r.status == 200 ==>
        exists j :: FirstWithEmail(admins, email, j) && r == AuthReply(200, "Login successful", Some(admins[j].id), None)
    {
      var i := FindIndex(admins, (a: Admin) => a.email == email);
      if i == -1 || admins[i].provider != Local {
        return AuthReply(401, InvalidCredentials, None, None);
      }
      assert FirstWithEmail(admins, email, i);
      if !Matches(password, admins[i].password) {
        return AuthReply(401, InvalidCredentials, None, None);
      }
      r := AuthReply(200, "Login successful", Some(admins[i].id), None);
    }
  }

  /** Only the first registration succeeds: a second one is refused and changes nothing. */
  method RegisterTwice(store: AdminStore, e1: string, p1: string, e2: string, p2: string, s1: nat, s2: nat)
    returns (first: AuthReply, second: AuthReply)
    requires store.admins == [] && e1 != "" && p1 != ""
    modifies store
    ensures first.status == 201 && second == AuthReply(403, RegistrationDisabled, None, None)
    ensures |store.admins| == 1
  {
    first := store.Register(e1, p1, s1);
    second := store.Register(e2, p2, s2);
  }

  /** The registered credentials log in; the same address with a password that differs
      within bcrypt's first 72 characters does not. */
  method RegisterThenLogin(store: AdminStore, email: string, password: string, wrong: string, salt: nat)
    returns (good: AuthReply, bad: AuthReply)
    requires store.admins == [] && email != "" && password != ""
    requires Significant(wrong) != Significant(password)
    modifies store
    ensures good == AuthReply(200, "Login successful", Some(0), None)
    ensures bad == AuthReply(401, InvalidCredentials, None, None)
  {
    var _ := store.Register(email, password, salt);
    assert FirstWithEmail(store.admins, email, 0);
    good := store.Login(email, password);
    bad := store.Login(email, wrong);
  }
}
