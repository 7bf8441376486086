/**
 * The client-side length checks the registration and login services run,
 * in order, before any request is sent: the first field over its limit
 * throws that field's message.
 */
module Guards {
  import opened Wrappers

  /** One check: `value.length > max` throws `message`. */
  datatype Limit = Limit(value: string, max: nat, message: string)

  predicate Within(l: Limit) {
    |l.value| <= l.max
  }

  predicate AllWithin(checks: seq<Limit>) {
    forall i :: 0 <= i < |checks| ==> Within(checks[i])
  }

  /** Check `i` is the first one that fails. */
  predicate FirstFailing(checks: seq<Limit>, i: int) {
    0 <= i < |checks| && !Within(checks[i]) && AllWithin(checks[..i])
  }

  /** The message of the first failing check, or None when every field is within its limit. */
  function FirstViolation(checks: seq<Limit>): (r: Option<string>)
    ensures r.None? <==> AllWithin(checks)
    ensures r.Some? ==> exists i :: FirstFailing(checks, i) && r.value == checks[i].message
  {
    if |checks| == 0 then None
    else if !Within(checks[0]) then
      assert FirstFailing(checks, 0);
      Some(checks[0].message)
    else
      var rest := FirstViolation(checks[1..]);
      if rest.Some? then
        var i :| FirstFailing(checks[1..], i) && rest.value == checks[1..][i].message;
        assert checks[..i + 1] == [checks[0]] + checks[1..][..i];
        assert FirstFailing(checks, i + 1);
        rest
      else
        assert forall k :: 1 <= k < |checks| ==> checks[k] == checks[1..][k - 1];
        None
  }

  /** At most one check is the first failing one, so the reported message is determined. */
  lemma FirstFailingUnique(checks: seq<Limit>, i: int, j: int)
    requires FirstFailing(checks, i) && FirstFailing(checks, j)
    ensures i == j
  {
  }

  /** A value over its limit whose earlier checks pass is what gets reported. */
  lemma ReportsFirstFailing(checks: seq<Limit>, i: int)
    requires FirstFailing(checks, i)
    ensures FirstViolation(checks) == Some(checks[i].message)
  {
    var r := FirstViolation(checks);
    var k :| FirstFailing(checks, k) && r.value == checks[k].message;
    FirstFailingUnique(checks, i, k);
  }

  const NAME_LIMIT_MESSAGE: string := "El nombre no puede exceder 20 caracteres"
  const LAST_NAME_LIMIT_MESSAGE: string := "El apellido no puede exceder 20 caracteres"
  const EMAIL_LIMIT_MESSAGE: string := "El correo electrónico no puede exceder 60 caracteres"
  const PASSWORD_LIMIT_MESSAGE: string := "La contraseña no puede exceder 30 caracteres"
  const RESUME_LIMIT_MESSAGE: string := "La URL del currículum no puede exceder 100 caracteres"

  /** The four checks every registration service runs, in source order. */
  function UserLimits(name: string, last_name: string, email: string, password: string): seq<Limit> {
    [Limit(name, 20, NAME_LIMIT_MESSAGE), Limit(last_name, 20, LAST_NAME_LIMIT_MESSAGE),
     Limit(email, 60, EMAIL_LIMIT_MESSAGE), Limit(password, 30, PASSWORD_LIMIT_MESSAGE)]
  }

  /** The candidate services add the résumé URL last. */
  function CandidateLimits(name: string, last_name: string, email: string, password: string, resume_url: string): seq<Limit> {
    UserLimits(name, last_name, email, password) + [Limit(resume_url, 100, RESUME_LIMIT_MESSAGE)]
  }
}
