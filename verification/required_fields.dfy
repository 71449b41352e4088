/** The controller's required-field check: walk a fixed list of field names in
    order and report the first one that is absent or falsy in the body. */
module RequiredFields {
  import opened Http

  /** The fields the login handler requires, in the order it checks them. */
  const LoginFields: seq<string> := ["email", "password"]

  /** The position of the first falsy field of `fields`, or `|fields|` when
      every field is truthy. The contract pins the position down uniquely. */
  function FirstMissingIndex(fields: seq<string>, body: Body): (k: nat)
    ensures k <= |fields|
    ensures forall i :: 0 <= i < k ==> Truthy(Field(body, fields[i]))
    ensures k < |fields| ==> !Truthy(Field(body, fields[k]))
  {
    if |fields| == 0 then 0
    else if !Truthy(Field(body, fields[0])) then 0
    else 1 + FirstMissingIndex(fields[1..], body)
  }

  /** The name of the first missing field, if any. */
  function MissingField(fields: seq<string>, body: Body): (r: Option<string>)
    ensures r.None? <==> forall i :: 0 <= i < |fields| ==> Truthy(Field(body, fields[i]))
    // A shorter form of the first-occurrence clause below, kept for readers.
    ensures r.Some? ==> r.value in fields && !Truthy(Field(body, r.value))
    ensures r.Some? ==>
              exists k :: 0 <= k < |fields| && fields[k] == r.value && !Truthy(Field(body, fields[k]))
                          && forall i :: 0 <= i < k ==> Truthy(Field(body, fields[i]))
  {
    var k := FirstMissingIndex(fields, body);
    if k < |fields| then Some(fields[k]) else None
  }

  /** The `for … of` loop over the required fields, returning at the first
      falsy one. */
  method CheckRequiredFields(fields: seq<string>, body: Body) returns (missing: Option<string>)
    ensures missing == MissingField(fields, body)
  {
    var i := 0;
    while i < |fields|
      invariant i <= |fields|
      invariant forall j :: 0 <= j < i ==> Truthy(Field(body, fields[j]))
    {
      if !Truthy(Field(body, fields[i])) {
        return Some(fields[i]);
      }
      i := i + 1;
    }
    return None;
  }

  /** Checking `a` then `b` is checking `a + b`: a field of `b` is reported
      only when every field of `a` is present. */
  lemma {:induction false} FirstMissingAppend(a: seq<string>, b: seq<string>, body: Body)
    ensures FirstMissingIndex(a + b, body)
            == if FirstMissingIndex(a, body) < |a| then FirstMissingIndex(a, body)
               else |a| + FirstMissingIndex(b, body)
  {
    if |a| > 0 {
      assert (a + b)[1..] == a[1..] + b;
      FirstMissingAppend(a[1..], b, body);
    } else {
      assert a + b == b;
    }
  }

  /** The login fields are checked as `["email"]` and then `["password"]`: a
      falsy `email` is reported whatever the password, and `password` only
      when the email is truthy. */
  lemma EmailBeforePassword(body: Body)
    ensures MissingField(LoginFields, body)
            == if !Truthy(Field(body, "email")) then Some("email")
               else if !Truthy(Field(body, "password")) then Some("password")
               else None
  {
    assert LoginFields == ["email"] + ["password"];
    FirstMissingAppend(["email"], ["password"], body);
  }
}
