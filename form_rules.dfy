/**
 * What the registration and login forms share: blank and length checks, the
 * password sanitiser applied on every keystroke, the selected-skill list and
 * the encryption fallbacks around an RSA encrypter that is passed in.
 */
module FormRules {
  import opened Wrappers
  import opened Js
  import opened Filters

  const NAME_MAX: nat := 20
  const EMAIL_MAX: nat := 60
  const PASSWORD_MAX: nat := 30
  const CV_MAX: nat := 100

  /** Only white space: what `s.trim() === ""` tests (see `BlankIffTrimEmpty`). */
  predicate IsBlank(s: string) {
    forall i :: 0 <= i < |s| ==> IsWhite(s[i])
  }

  /** `IsBlank` is exactly the test `s.trim() === ""`. */
  lemma BlankIffTrimEmpty(s: string)
    ensures IsBlank(s) <==> Trim(s) == ""
  {
    TrimBlank(s);
  }

  /** The name and last-name check: blank, or longer than 20 before trimming. */
  predicate NameInvalid(s: string) {
    IsBlank(s) || |s| > NAME_MAX
  }

  predicate EmailInvalid(s: string) {
    IsBlank(s) || |s| > EMAIL_MAX
  }

  predicate PasswordInvalid(s: string) {
    IsBlank(s) || |s| > PASSWORD_MAX
  }

  /** The CV check; `validUrl` stands for the URL-parser test that the protocol is http: or https:. */
  predicate CvInvalid(s: string, validUrl: string -> bool) {
    IsBlank(s) || !validUrl(s) || |s| > CV_MAX
  }

  /** The error flags of the candidate forms, one per check. */
  datatype CandidateErrors = CandidateErrors(
    name: bool, lastName: bool, email: bool, passwordFormat: bool, passwordMismatch: bool, cv: bool, skills: bool)

  const NO_CANDIDATE_ERRORS: CandidateErrors := CandidateErrors(false, false, false, false, false, false, false)

  predicate AnyError(e: CandidateErrors) {
    e.name || e.lastName || e.email || e.passwordFormat || e.passwordMismatch || e.cv || e.skills
  }

  /** What each of the seven checks of a candidate form finds, each about its own field. */
  function CandidateChecks(name: string, lastName: string, email: string, password: string, confirmPassword: string,
                           cvLink: string, skills: seq<string>, validUrl: string -> bool): (r: CandidateErrors)
    ensures r.name == NameInvalid(name) && r.lastName == NameInvalid(lastName)
    ensures r.email == EmailInvalid(email) && r.passwordFormat == PasswordInvalid(password)
    ensures r.passwordMismatch == (password != confirmPassword)
    ensures r.cv == CvInvalid(cvLink, validUrl) && r.skills == (|skills| < 1)
  {
    CandidateErrors(NameInvalid(name), NameInvalid(lastName), EmailInvalid(email), PasswordInvalid(password),
                    password != confirmPassword, CvInvalid(cvLink, validUrl), |skills| < 1)
  }

  /** The characters the password inputs delete. */
  const FORBIDDEN: set<char> := {
    '!', '"', '#', '$', '%', '/', '(', ')', '=', '?', '¡', '¨', '*', '[', ']', ';', ':', '_', '¿', '´',
    '+', '{', '}', ',', '.', '-', '>', '<', '°', '|', '¬', '\\', '~', '`', '^', 'Ñ', 'ñ', '\r', '\n'
  }

  /** The `replace` with the global character class: every forbidden character deleted. */
  function StripForbidden(s: string): (r: string)
    ensures forall i :: 0 <= i < |r| ==> r[i] !in FORBIDDEN
    ensures Subsequence(r, s)
    ensures (forall i :: 0 <= i < |s| ==> s[i] !in FORBIDDEN) ==> r == s
    ensures forall x :: x !in FORBIDDEN ==> multiset(r)[x] == multiset(s)[x]
  {
    var keep := (c: char) => c !in FORBIDDEN;
    FilterMultiset(s, keep);
    var r := Filter(s, keep);
    assert forall i :: 0 <= i < |r| ==> r[i] in r;
    r
  }

  /** The password as the input keeps it: forbidden characters deleted, then cut to 30. */
  function SanitizePassword(s: string): (r: string)
    ensures forall i :: 0 <= i < |r| ==> r[i] !in FORBIDDEN
    ensures |r| <= PASSWORD_MAX
    ensures r <= StripForbidden(s)
    ensures |StripForbidden(s)| <= PASSWORD_MAX ==> r == StripForbidden(s)
    ensures |r| == if |StripForbidden(s)| <= PASSWORD_MAX then |StripForbidden(s)| else PASSWORD_MAX
  {
    SlicePrefix(StripForbidden(s), PASSWORD_MAX);
    Slice(StripForbidden(s), 0, PASSWORD_MAX)
  }

  /** Sanitising a sanitised password changes nothing. */
  lemma SanitizeIdempotent(s: string)
    ensures SanitizePassword(SanitizePassword(s)) == SanitizePassword(s)
  {
    var r := SanitizePassword(s);
    assert StripForbidden(r) == r;
  }

  /** `handleSkillSelect(value)`: appended unless already selected. */
  function SelectSkill(selected: seq<string>, value: string): (r: seq<string>)
    ensures forall x :: x in r <==> x in selected || x == value
    ensures value in selected ==> r == selected
    ensures value !in selected ==> r == selected + [value]
    ensures NoDup(selected) ==> NoDup(r)
  {
    if value in selected then selected else selected + [value]
  }

  /** Selecting the same skill again changes nothing. */
  lemma SelectSkillIdempotent(selected: seq<string>, value: string)
    ensures SelectSkill(SelectSkill(selected, value), value) == SelectSkill(selected, value)
  {
  }

  /** `handleSkillRemove(value)`: every occurrence deleted, the rest kept in order. */
  function RemoveSkill(selected: seq<string>, value: string): (r: seq<string>)
    ensures value !in r
    ensures forall x :: x != value ==> (x in r <==> x in selected)
    ensures Subsequence(r, selected)
    ensures NoDup(selected) ==> NoDup(r)
  {
    Filter(selected, (s: string) => s != value)
  }

  /** Removing a skill just selected gives back the list from before. */
  lemma RemoveUndoesSelect(selected: seq<string>, value: string)
    requires value !in selected
    ensures RemoveSkill(SelectSkill(selected, value), value) == selected
  {
    var p := (s: string) => s != value;
    FilterAppend(selected, [value], p);
    assert Filter([value], p) == [];
  }

  /** An entry of the skill dropdown; `caption` is its `label`. */
  datatype SkillOption = SkillOption(value: string, caption: string)

  /** `availableSkills`: the options whose value is not selected, in their order. */
  function AvailableSkills(options: seq<SkillOption>, selected: seq<string>): (r: seq<SkillOption>)
    ensures forall o :: o in r <==> o in options && o.value !in selected
    ensures Subsequence(r, options)
  {
    Filter(options, (o: SkillOption) => o.value !in selected)
  }

  /** Each option is offered or selected, never both. */
  lemma AvailableIsComplement(options: seq<SkillOption>, selected: seq<string>, o: SkillOption)
    requires o in options
    ensures o in AvailableSkills(options, selected) <==> o.value !in selected
  {
  }

  /** `selectedSkills.map((s) => parseInt(s))`. */
  function SkillIds(selected: seq<string>): (r: seq<Number>)
    ensures |r| == |selected| && forall i :: 0 <= i < |selected| ==> r[i] == ParseInt(selected[i])
  {
    seq(|selected|, i requires 0 <= i < |selected| => ParseInt(selected[i]))
  }

  /** Skills whose values are ids written with `toString()` come back as those ids. */
  lemma SkillIdsRoundTrip(ids: seq<nat>)
    ensures SkillIds(seq(|ids|, i requires 0 <= i < |ids| => Decimal(ids[i]))) == seq(|ids|, i requires 0 <= i < |ids| => Number.Num(ids[i]))
  {
    forall i | 0 <= i < |ids| ensures ParseInt(Decimal(ids[i])) == Number.Num(ids[i]) {
      ParseIntDecimal(ids[i]);
    }
  }

  /** What `jsEncrypt.encrypt(password)` does: gives text, gives `false`, or throws. */
  datatype EncryptOutcome = Cipher(text: string) | NoCipher | Raised

  /**
   * `encryptPassword` of the pages: the plain password when no public key is
   * set, when encryption gives nothing and when it throws.
   */
  function EncryptWithFallback(publicKey: Option<string>, encrypt: string -> EncryptOutcome, password: string): (r: string)
    ensures r == password || (Truthy(publicKey) && encrypt(password) == Cipher(r) && r != "")
    ensures !Truthy(publicKey) ==> r == password
    ensures Truthy(publicKey) && !encrypt(password).Cipher? ==> r == password
    ensures Truthy(publicKey) && encrypt(password).Cipher? ==> r == OrElse(Some(encrypt(password).text), password)
  {
    if !Truthy(publicKey) then password
    else
      match encrypt(password)
      case Cipher(text) => OrElse(Some(text), password)
      case NoCipher => password
      case Raised => password
  }

  /**
   * `encryptPassword` of the screen form, `encrypt(password) || ""`, with no
   * `try` around it: a throw escapes, and `false` becomes the empty string.
   */
  function EncryptOrEmpty(encrypt: string -> EncryptOutcome, password: string): (r: Result<string, ()>)
    ensures r.Err? <==> encrypt(password).Raised?
    ensures r.Ok? ==> r.value == "" || encrypt(password) == Cipher(r.value)
    ensures encrypt(password).NoCipher? ==> r == Ok("")
  {
    match encrypt(password)
    case Cipher(text) => Ok(text)
    case NoCipher => Ok("")
    case Raised => Err(())
  }

  /** Unlike the pages, the screen form never falls back to the plain password. */
  lemma EmptyRatherThanPlaintext(encrypt: string -> EncryptOutcome, password: string)
    requires password != "" && encrypt(password).NoCipher?
    ensures EncryptOrEmpty(encrypt, password) == Ok("")
    ensures EncryptWithFallback(Some("key"), encrypt, password) == password
  {
  }
}
