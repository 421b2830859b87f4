/** The policy and text helpers of `src/lib/utils.ts`: commission arithmetic,
    role and ownership predicates, truncation, slugs and sanitising. */
module Utils {
  import opened Wrappers
  import opened Roles
  import opened Text

  // ---------------------------------------------------------------- money

  /** Commission on a property price at a percentage rate. Money is `real`. */
  function CalculateCommission(propertyPrice: real, commissionPercentage: real): real {
    (propertyPrice * commissionPercentage) / 100.0
  }

  lemma CommissionProperties(price: real, pct: real)
    ensures CalculateCommission(price, pct) * 100.0 == price * pct
    ensures CalculateCommission(price, 0.0) == 0.0
    ensures CalculateCommission(price, 100.0) == price
    ensures 0.0 <= price && 0.0 <= pct <= 100.0 ==> 0.0 <= CalculateCommission(price, pct) <= price
  {
    if 0.0 <= price && 0.0 <= pct <= 100.0 {
      assert price * pct <= price * 100.0;
    }
  }

  // ---------------------------------------------------------------- roles

  predicate IsAdmin(role: Option<Role>) {
    role == Some(Admin)
  }

  predicate IsAgent(role: Option<Role>) {
    role == Some(Agent)
  }

  predicate IsClient(role: Option<Role>) {
    role == Some(Client)
  }

  /** Linear membership test, `Array.prototype.includes`. */
  function Includes(s: seq<Role>, x: Role): (r: bool)
    ensures r <==> x in s
  {
    if s == [] then false else s[0] == x || Includes(s[1..], x)
  }

  /** An absent role has no permission; otherwise the role must be listed. */
  function HasPermission(userRole: Option<Role>, requiredRoles: seq<Role>): (r: bool)
    ensures r <==> userRole.Some? && userRole.value in requiredRoles
    ensures userRole.None? ==> !r
  {
    match userRole
    case None => false
    case Some(role) => Includes(requiredRoles, role)
  }

  /** Each single-role test is `hasPermission` with that role alone, and the
      three are mutually exclusive. */
  lemma RolePredicates(role: Option<Role>)
    ensures IsAdmin(role) == HasPermission(role, [Admin])
    ensures IsAgent(role) == HasPermission(role, [Agent])
    ensures IsClient(role) == HasPermission(role, [Client])
    ensures role.None? ==> !IsAdmin(role) && !IsAgent(role) && !IsClient(role)
    ensures !(IsAdmin(role) && IsAgent(role)) && !(IsAgent(role) && IsClient(role)) && !(IsAdmin(role) && IsClient(role))
  {
  }

  predicate CanAccessLead(leadAssignedAgentId: Option<string>, currentUserId: string, userRole: Role) {
    if userRole == Admin then true
    else if leadAssignedAgentId == Some(currentUserId) then true
    else false
  }

  predicate CanAccessProperty(propertyAgentId: string, currentUserId: string, userRole: Role) {
    if userRole == Admin then true
    else if propertyAgentId == currentUserId then true
    else false
  }

  predicate CanManageUser(targetUserRole: Role, currentUserRole: Role) {
    if currentUserRole == Admin then true else false
  }

  /** The ownership rules: an admin may access everything, anyone else only the
      rows assignee to them; an unassigned lead is closed to every non-admin; and
      managing users depends on the manager's role alone. */
  lemma AccessRules(assignee: Option<string>, agentId: string, me: string, role: Role, target: Role, other: Role)
    ensures CanAccessLead(assignee, me, role) <==> role == Admin || assignee == Some(me)
    ensures assignee.None? && role != Admin ==> !CanAccessLead(assignee, me, role)
    ensures CanAccessProperty(agentId, me, role) <==> role == Admin || agentId == me
    ensures CanManageUser(target, role) <==> role == Admin
    ensures CanManageUser(target, role) == CanManageUser(other, role)
  {
  }

  // ---------------------------------------------------------------- truncation

  function Min(a: int, b: int): int {
    if a <= b then a else b
  }

  function Max(a: int, b: int): int {
    if a <= b then b else a
  }

  /** `String.prototype.substring`: both ends are clamped to the string and
      swapped when they come in the wrong order. */
  function Substring(s: string, start: int, end: int): string {
    var a := Min(Max(start, 0), |s|);
    var b := Min(Max(end, 0), |s|);
    if a <= b then s[a..b] else s[b..a]
  }

  /** Text no longer than `length` is returned as is; longer text is cut to its
      first `length` characters (none when `length` is negative) and "..." is
      appended. */
  function TruncateText(text: string, length: int): (r: string)
    ensures |text| <= length ==> r == text
    ensures |text| > length ==> |r| == Max(length, 0) + 3
    ensures |text| > length ==> r[..|r| - 3] == text[..Max(length, 0)] && r[|r| - 3..] == "..."
  {
    if |text| <= length then text else Substring(text, 0, length) + "..."
  }

  // ---------------------------------------------------------------- slugs

  /** The characters of `s` satisfying `p`, in order. */
  function Keep(s: string, p: char -> bool): (r: string)
    ensures |r| <= |s|
    ensures forall c :: c in r <==> c in s && p(c)
    ensures (forall c :: c in s ==> p(c)) ==> r == s
  {
    if s == [] then []
    else if p(s[0]) then [s[0]] + Keep(s[1..], p)
    else Keep(s[1..], p)
  }

  /** Drops the maximal prefix of `s` whose characters satisfy `p`. */
  function DropRun(s: string, p: char -> bool): (r: string)
    ensures |r| <= |s| && r == s[|s| - |r|..]
    ensures s != [] && p(s[0]) ==> |r| < |s|
    ensures r == [] || !p(r[0])
  {
    if s != [] && p(s[0]) then DropRun(s[1..], p) else s
  }

  /** Replaces every maximal run of characters satisfying `p` by a single '-',
      which is what a global replacement of `/x+/g` by "-" does. */
  function Squeeze(s: string, p: char -> bool): string
    decreases |s|
  {
    if s == [] then []
    else if p(s[0]) then "-" + Squeeze(DropRun(s, p), p)
    else [s[0]] + Squeeze(s[1..], p)
  }

  /** The characters `/[^\w\s-]/g` does not remove. */
  predicate SlugSource(c: char) {
    IsWordChar(c) || IsSpace(c) || IsDash(c)
  }

  /** The characters a slug is made of: lower-case ASCII word characters and '-'. */
  predicate SlugChar(c: char) {
    ('a' <= c <= 'z') || ('0' <= c <= '9') || c == '_' || c == '-'
  }

  predicate NoDoubleDash(s: string) {
    forall i :: 0 <= i < |s| - 1 ==> !(s[i] == '-' && s[i + 1] == '-')
  }

  /** Lower-cases, strips everything but word characters, white space and '-',
      turns each run of white space into '-', then collapses runs of '-'. */
  function GenerateSlug(text: string): string {
    Squeeze(Squeeze(Keep(Lower(text), SlugSource), IsSpace), IsDash)
  }

  lemma {:induction false} SqueezeChars(s: string, p: char -> bool)
    ensures forall c :: c in Squeeze(s, p) ==> c == '-' || (c in s && !p(c))
    decreases |s|
  {
    if s == [] {
    } else if p(s[0]) {
      var t := DropRun(s, p);
      SqueezeChars(t, p);
      forall c | c in t ensures c in s {
        assert t == s[|s| - |t|..];
      }
    } else {
      SqueezeChars(s[1..], p);
    }
  }

  lemma NoDoubleDashCons(c: char, x: string)
    requires NoDoubleDash(x)
    requires c != '-' || x == [] || x[0] != '-'
    ensures NoDoubleDash([c] + x)
  {
    var s := [c] + x;
    forall i | 0 <= i < |s| - 1
      ensures !(s[i] == '-' && s[i + 1] == '-')
    {
      if i > 0 {
        assert s[i] == x[i - 1] && s[i + 1] == x[i];
      }
    }
  }

  lemma {:induction false} SqueezeNoDoubleDash(s: string)
    ensures NoDoubleDash(Squeeze(s, IsDash))
    decreases |s|
  {
    if s == [] {
    } else if IsDash(s[0]) {
      var t := DropRun(s, IsDash);
      SqueezeNoDoubleDash(t);
      if t != [] {
        assert Squeeze(t, IsDash) == [t[0]] + Squeeze(t[1..], IsDash);
      }
      NoDoubleDashCons('-', Squeeze(t, IsDash));
    } else {
      SqueezeNoDoubleDash(s[1..]);
      NoDoubleDashCons(s[0], Squeeze(s[1..], IsDash));
    }
  }

  lemma {:induction false} SqueezeUntouched(s: string, p: char -> bool)
    requires forall c :: c in s ==> !p(c)
    ensures Squeeze(s, p) == s
    decreases |s|
  {
    if s != [] {
      assert s[0] in s;
      SqueezeUntouched(s[1..], p);
    }
  }

  lemma NoDoubleDashTail(s: string)
    requires s != [] && NoDoubleDash(s)
    ensures NoDoubleDash(s[1..])
  {
    forall i | 0 <= i < |s[1..]| - 1 ensures !(s[1..][i] == '-' && s[1..][i + 1] == '-') {
      assert s[1..][i] == s[i + 1] && s[1..][i + 1] == s[i + 2];
    }
  }

  lemma LoneDash(s: string)
    requires s != [] && IsDash(s[0]) && NoDoubleDash(s)
    ensures DropRun(s, IsDash) == s[1..]
  {
    if |s| > 1 {
      assert s[1] != '-';
      assert s[1..][0] == s[1];
    }
    assert DropRun(s, IsDash) == DropRun(s[1..], IsDash);
  }

  lemma {:induction false} SqueezeDashesUntouched(s: string)
    requires NoDoubleDash(s)
    ensures Squeeze(s, IsDash) == s
    decreases |s|
  {
    if s == [] {
    } else {
      NoDoubleDashTail(s);
      SqueezeDashesUntouched(s[1..]);
      if IsDash(s[0]) {
        LoneDash(s);
        assert "-" + s[1..] == s;
      } else {
        assert [s[0]] + s[1..] == s;
      }
    }
  }

  lemma LowerUntouched(s: string)
    requires forall c :: c in s ==> !IsUpper(c)
    ensures Lower(s) == s
  {
    var r := Lower(s);
    forall i | 0 <= i < |s| ensures r[i] == s[i] {
      assert s[i] in s;
    }
  }

  /** A slug contains only lower-case ASCII word characters and '-', hence no
      white space, and never two '-' in a row. */
  lemma SlugShape(text: string)
    ensures forall c :: c in GenerateSlug(text) ==> SlugChar(c) && !IsSpace(c)
    ensures NoDoubleDash(GenerateSlug(text))
  {
    var t1 := Lower(text);
    var t2 := Keep(t1, SlugSource);
    var t3 := Squeeze(t2, IsSpace);
    forall c | c in t1 ensures !IsUpper(c) {
      var i :| 0 <= i < |t1| && t1[i] == c;
    }
    SqueezeChars(t2, IsSpace);
    SqueezeChars(t3, IsDash);
    SqueezeNoDoubleDash(t3);
  }

  /** Slugging a slug changes nothing. */
  lemma SlugIdempotent(text: string)
    ensures GenerateSlug(GenerateSlug(text)) == GenerateSlug(text)
  {
    var s := GenerateSlug(text);
    SlugShape(text);
    LowerUntouched(s);
    assert Keep(s, SlugSource) == s;
    SqueezeUntouched(s, IsSpace);
    SqueezeDashesUntouched(s);
  }

  // ---------------------------------------------------------------- sanitising

  predicate NotAngle(c: char) {
    c != '<' && c != '>'
  }

  /** Removes every '<' and '>' and trims white space from both ends. */
  function SanitizeString(str: string): string {
    Trim(Keep(str, NotAngle))
  }

  lemma TrimChars(s: string)
    ensures forall c :: c in Trim(s) ==> c in s
    ensures Trim(s) == [] || (!IsSpace(Trim(s)[0]) && !IsSpace(Trim(s)[|Trim(s)| - 1]))
  {
    var t := TrimStart(s);
    var r := TrimEnd(t);
    forall c | c in r ensures c in s {
      var i :| 0 <= i < |r| && r[i] == c;
      assert r[i] == t[i];
      assert t[i] == s[|s| - |t| + i];
    }
    if r != [] {
      assert r[0] == t[0];
    }
  }

  /** Sanitised text has no angle brackets and no white space at either end, and
      text already in that shape is left as it is. */
  lemma SanitizeShape(str: string)
    ensures forall c :: c in SanitizeString(str) ==> c in str && NotAngle(c)
    ensures var r := SanitizeString(str); r == [] || (!IsSpace(r[0]) && !IsSpace(r[|r| - 1]))
    ensures (forall c :: c in str ==> NotAngle(c)) && (str == [] || (!IsSpace(str[0]) && !IsSpace(str[|str| - 1])))
            ==> SanitizeString(str) == str
  {
    TrimChars(Keep(str, NotAngle));
  }

  lemma SanitizeIdempotent(str: string)
    ensures SanitizeString(SanitizeString(str)) == SanitizeString(str)
  {
    SanitizeShape(str);
    SanitizeShape(SanitizeString(str));
  }
}
