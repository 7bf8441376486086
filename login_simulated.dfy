/**
 * The login screen that forces a session: it makes up a user from the
 * typed email alone, saves it through the numeric-code authentication
 * service and routes by the made-up user type.
 */
module LoginSimulated {
  import opened Wrappers
  import opened Js
  import opened Storage
  import opened NumericAuthService

  const COMPANY_WORD: string := "empresa"
  const COMPANY_TYPE: string := "empresa"
  const CANDIDATE_TYPE: string := "candidato"
  const SIMULATED_COMPANY_ID: int := 123
  const SIMULATED_RESUME: string := "https://ejemplo.com/cv.pdf"
  const SIMULATED_SKILLS: seq<string> := ["JavaScript", "React"]
  const CANDIDATE_HOME: string := "/home-candidato"
  const EMPLOYER_HOME: string := "/home-empresa"

  /** Whether the email, lower-cased, contains "empresa". */
  predicate IsCompanyEmail(email: string) {
    Includes(ToLower(email), COMPANY_WORD)
  }

  /**
   * `usuarioSimulado`: a company user with company 123 and no CV or skills,
   * or a candidate with the fixed CV and skills and no company; the id and
   * the names are fixed and the email is the one typed.
   */
  function SimulatedUser(email: string): (r: User)
    ensures r.user_type == COMPANY_TYPE <==> IsCompanyEmail(email)
    ensures r.user_type == CANDIDATE_TYPE <==> !IsCompanyEmail(email)
    ensures r.user_type == COMPANY_TYPE ==>
              r.company_id == Some(SIMULATED_COMPANY_ID) && r.resume_url.None? && r.skill_list.None?
    ensures r.user_type == CANDIDATE_TYPE ==>
              r.company_id.None? && r.resume_url == Some(SIMULATED_RESUME) && r.skill_list == Some(SIMULATED_SKILLS)
    ensures r.id == 1 && r.name == "Nombre" && r.last_name == "Apellido" && r.email == email
  {
    var isCompany := IsCompanyEmail(email);
    User(1, "Nombre", "Apellido", email,
         if isCompany then COMPANY_TYPE else CANDIDATE_TYPE,
         if isCompany then Some(SIMULATED_COMPANY_ID) else None,
         if isCompany then None else Some(SIMULATED_RESUME),
         if isCompany then None else Some(SIMULATED_SKILLS))
  }

  /** A candidate goes to the candidate home; every other user type to the company home. */
  function RouteOf(user: User): (r: string)
    ensures r == CANDIDATE_HOME <==> user.user_type == CANDIDATE_TYPE
    ensures r == EMPLOYER_HOME <==> user.user_type != CANDIDATE_TYPE
  {
    if user.user_type == CANDIDATE_TYPE then CANDIDATE_HOME else EMPLOYER_HOME
  }

  /** Only the letters matter, not their case: an email and its lower-cased form make the same user type. */
  lemma ClassificationIgnoresCase(email: string)
    ensures SimulatedUser(ToLower(email)).user_type == SimulatedUser(email).user_type
  {
    ToLowerIdempotent(email);
  }

  /** An email holding "Empresa" in any case signs in as a company. */
  lemma CompanyWordAnyCase(prefix: string, suffix: string)
    ensures IsCompanyEmail(prefix + "EMPRESA" + suffix)
  {
    var email := prefix + "EMPRESA" + suffix;
    var lowered := ToLower(email);
    ToLowerAppend(prefix + "EMPRESA", suffix);
    ToLowerAppend(prefix, "EMPRESA");
    assert ToLower("EMPRESA") == COMPANY_WORD;
    assert lowered == ToLower(prefix) + COMPANY_WORD + ToLower(suffix);
    IncludesInside(ToLower(prefix), COMPANY_WORD, ToLower(suffix));
  }

  /** `toLowerCase` distributes over concatenation. */
  lemma ToLowerAppend(a: string, b: string)
    ensures ToLower(a + b) == ToLower(a) + ToLower(b)
  {
    var l, r := ToLower(a + b), ToLower(a) + ToLower(b);
    forall i | 0 <= i < |l| ensures l[i] == r[i] {
      if i < |a| {
        assert (a + b)[i] == a[i];
      } else {
        assert (a + b)[i] == b[i - |a|];
      }
    }
  }

  /** A word surrounded by any text is included in it. */
  lemma {:induction false} IncludesInside(prefix: string, word: string, suffix: string)
    ensures Includes(prefix + word + suffix, word)
  {
    if prefix == [] {
      assert prefix + word + suffix == word + suffix;
      assert word <= word + suffix;
    } else {
      assert (prefix + word + suffix)[1..] == prefix[1..] + word + suffix;
      IncludesInside(prefix[1..], word, suffix);
    }
  }

  /** The user saved by a simulated login is what `getCurrentUser()` reads, and it routes the same way. */
  lemma SimulatedUserRoundTrip(items: map<string, string>, codec: Codec<User>, email: string)
    requires Lawful(codec)
    ensures CurrentUser(items[CURRENT_USER_KEY := codec.stringify(SimulatedUser(email))], codec) == Some(SimulatedUser(email))
    ensures RouteOf(SimulatedUser(email)) == (if IsCompanyEmail(email) then EMPLOYER_HOME else CANDIDATE_HOME)
  {
    SaveThenCurrent(items, codec, SimulatedUser(email));
  }

  /** The screen's state; `store` is the browser's `localStorage`. */
  class Login {
    const store: LocalStorage
    var email: string
    var password: string
    var loading: bool
    var error: Option<string>

    constructor (store: LocalStorage)
      ensures this.store == store
      ensures email == "" && password == "" && !loading && error.None?
    {
      this.store := store;
      email, password, loading, error := "", "", false, None;
    }

    /**
     * `handleLogin`: the password is ignored; the made-up user is saved
     * before the route is taken, and loading ends. Nothing in the `try` can
     * throw, so the `catch` is never reached.
     */
    method HandleLogin(codec: Codec<User>) returns (route: string)
      modifies this, store
      ensures email == old(email) && password == old(password)
      ensures store.items == old(store.items)[CURRENT_USER_KEY := codec.stringify(SimulatedUser(email))]
      ensures route == RouteOf(SimulatedUser(email))
      ensures !loading && error.None?
    {
      error := None;
      loading := true;
      var usuarioSimulado := SimulatedUser(email);
      SaveUser(store, codec, Some(usuarioSimulado));
      route := RouteOf(usuarioSimulado);
      loading := false;
    }
  }
}
