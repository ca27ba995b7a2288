/** `isUserNameExisting` and `generateUniqueUserName` of lib/api.ts: the
    user name is the display name without whitespace, lower-cased, and when
    that is taken the first of `base1`, `base2`, ... that is free. */
module UserNames {
  import opened Text

  /** What the `listDocuments` query on the `userName` field gives back. */
  datatype NameQuery = Documents(count: nat) | QueryFailed

  /** `isUserNameExisting`: a name is taken when the query finds a document;
      a failed query is read as "not taken". */
  predicate IsUserNameExisting(query: string -> NameQuery, userName: string): (taken: bool)
    ensures query(userName).QueryFailed? ==> !taken
    ensures taken ==> query(userName).Documents? && query(userName).count > 0
  {
    match query(userName)
    case Documents(n) => n > 0
    case QueryFailed => false
  }

  /** `name.replace(/\s+/g, "").toLowerCase()`. */
  function BaseUserName(name: string): (base: string)
    ensures NoWhitespace(base)
    ensures forall i :: 0 <= i < |base| ==> !('A' <= base[i] <= 'Z')
  {
    var stripped := RemoveWhitespace(name);
    var base := AsciiLower(stripped);
    assert forall i :: 0 <= i < |base| ==> base[i] == LowerChar(stripped[i]);
    base
  }

  /** The candidate tried at step `n`: `base` itself, then `base1`, `base2`, ... */
  function Candidate(base: string, n: nat): string {
    if n == 0 then base else base + NatToString(n)
  }

  /** `k` is the first step whose candidate is free. */
  predicate FirstFree(query: string -> NameQuery, base: string, k: nat) {
    && !IsUserNameExisting(query, Candidate(base, k))
    && forall j :: 0 <= j < k ==> IsUserNameExisting(query, Candidate(base, j))
  }

  /** `generateUniqueUserName(name, lang)`. The source loops for ever when
      every candidate is taken; `free` names a step whose candidate is free,
      which is what makes the loop end. */
  method GenerateUniqueUserName(name: string, query: string -> NameQuery, ghost free: nat)
    returns (userName: string)
    requires !IsUserNameExisting(query, Candidate(BaseUserName(name), free))
    ensures exists k: nat :: k <= free && FirstFree(query, BaseUserName(name), k)
                        && userName == Candidate(BaseUserName(name), k)
  {
    var base := BaseUserName(name);
    userName := base;
    var counter := 1;
    while IsUserNameExisting(query, userName)
      invariant 1 <= counter <= free + 1
      invariant userName == Candidate(base, counter - 1)
      invariant forall j :: 0 <= j < counter - 1 ==> IsUserNameExisting(query, Candidate(base, j))
      decreases free - counter
    {
      userName := base + NatToString(counter);
      counter := counter + 1;
    }
    assert FirstFree(query, base, counter - 1);
  }

  /** Different steps try different names, so no candidate is tried twice. */
  lemma CandidateInjective(base: string, m: nat, n: nat)
    requires Candidate(base, m) == Candidate(base, n)
    ensures m == n
  {
    if m > 0 && n > 0 {
      var c := Candidate(base, m);
      assert NatToString(m) == c[|base|..] == NatToString(n);
      NatToStringInjective(m, n);
    }
  }

  /** A candidate is `base` (step 0) or `base` followed by the decimal
      numeral of the step, without leading zero. */
  lemma CandidateShape(base: string, n: nat)
    ensures IsPrefix(base, Candidate(base, n))
    ensures n == 0 <==> |Candidate(base, n)| == |base|
    ensures n > 0 ==> var suffix := Candidate(base, n)[|base|..];
                      IsDigits(suffix) && suffix[0] != '0' && ParseDigits(suffix) == n
  {
    if n > 0 {
      assert Candidate(base, n)[|base|..] == NatToString(n);
      ParseNatToString(n);
    }
  }

  /** There is only one first free step, so the generated name is determined
      by the oracle. */
  lemma FirstFreeUnique(query: string -> NameQuery, base: string, k1: nat, k2: nat)
    requires FirstFree(query, base, k1) && FirstFree(query, base, k2)
    ensures k1 == k2
  {
  }
}
