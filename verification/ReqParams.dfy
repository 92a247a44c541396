/**
 Validation of CreateVolume parameters. Each parser visits the map in arbitrary order, deletes the
 parameters it recognises, and the caller rejects whatever remains.
 */
module ReqParams {
  import opened Wrappers
  import opened ConfigHeap
  import opened GoStrings
  import opened VolumePaths

  const HOST := "sysMgmtdHost"
  const BASE_PATH := "volDirBasePath"
  const POOL := "stripePattern/storagePoolID"
  const CHUNK := "stripePattern/chunkSize"
  const TARGETS := "stripePattern/numTargets"
  const UID := "permissions/uid"
  const GID := "permissions/gid"
  const MODE := "permissions/mode"
  const STRIPE := "stripePattern/"
  const PERMISSIONS := "permissions/"
  const DEFAULT_MODE: nat := 511

  datatype StripePattern = StripePattern(storagePoolID: string, chunkSize: string, numTargets: string)

  datatype Permissions = Permissions(uid: nat, gid: nat, mode: nat)

  datatype ReqParameters = ReqParameters(host: string, basePath: Path, stripe: StripePattern, permissions: Permissions)

  // ---- Values ---------------------------------------------------------------------------------------------

  function Digit(c: char): (d: int)
  {
    c as int - '0' as int
  }

  predicate IsNumeral(s: string, base: nat)
  {
    s != "" && forall i :: 0 <= i < |s| ==> 0 <= Digit(s[i]) < base
  }

  function Numeral(s: string, base: nat): (n: nat)
    requires forall i :: 0 <= i < |s| ==> 0 <= Digit(s[i]) < base
  {
    if s == "" then 0 else Numeral(s[..|s| - 1], base) * base + Digit(s[|s| - 1])
  }

  /** strconv.ParseUint with an explicit base: digits only, at least one, below the limit of the width. */
  function ParseUint(s: string, base: nat, limit: nat): (r: Option<nat>)
  {
    if IsNumeral(s, base) && Numeral(s, base) < limit then Some(Numeral(s, base)) else None
  }

  const LIMIT_12 := 0x1000
  const LIMIT_16 := 0x1_0000
  const LIMIT_32 := 0x1_0000_0000

  predicate IsLetter(c: char)
  {
    'a' <= c <= 'z' || 'A' <= c <= 'Z'
  }

  /** Digits followed by a single letter. */
  predicate IsChunkSize(s: string)
  {
    |s| >= 2 && IsNumeral(s[..|s| - 1], 10) && IsLetter(s[|s| - 1])
  }

  predicate StripeValueOk(k: string, v: string)
  {
    if k == POOL || k == TARGETS then v == "" || ParseUint(v, 10, LIMIT_16).Some?
    else k == CHUNK && (v == "" || IsChunkSize(v))
  }

  predicate PermissionValueOk(k: string, v: string)
  {
    if k == UID || k == GID then ParseUint(v, 10, LIMIT_32).Some?
    else k == MODE && ParseUint(v, 8, LIMIT_12).Some?
  }

  // ---- The specification ------------------------------------------------------------------------------------

  const KNOWN: set<string> := {HOST, BASE_PATH, POOL, CHUNK, TARGETS, UID, GID, MODE}

  predicate ValidParams(m: map<string, string>)
  {
    && m.Keys <= KNOWN
    && HOST in m && m[HOST] != ""
    && BASE_PATH in m
    && (forall k :: k in m && k in {POOL, CHUNK, TARGETS} ==> StripeValueOk(k, m[k]))
    && (forall k :: k in m && k in {UID, GID, MODE} ==> PermissionValueOk(k, m[k]))
  }

  function Lookup(m: map<string, string>, k: string): (v: string)
  {
    if k in m then m[k] else ""
  }

  function NumberOr(m: map<string, string>, k: string, base: nat, limit: nat, absent: nat): (n: nat)
  {
    if k in m then (match ParseUint(m[k], base, limit) case Some(n) => n case None => absent) else absent
  }

  function StripeOf(m: map<string, string>): (r: StripePattern)
  {
    StripePattern(Lookup(m, POOL), Lookup(m, CHUNK), Lookup(m, TARGETS))
  }

  function PermissionsOf(m: map<string, string>): (r: Permissions)
  {
    Permissions(NumberOr(m, UID, 10, LIMIT_32, 0), NumberOr(m, GID, 10, LIMIT_32, 0),
                NumberOr(m, MODE, 8, LIMIT_12, DEFAULT_MODE))
  }

  /** The base path is joined to the root and cleaned. */
  function ParamsOf(m: map<string, string>): (r: ReqParameters)
    requires ValidParams(m)
  {
    ReqParameters(m[HOST], CleanPath(m[BASE_PATH]), StripeOf(m), PermissionsOf(m))
  }

  // ---- The parsers ------------------------------------------------------------------------------------------

  predicate IsStripeKey(k: string)
  {
    Contains(k, STRIPE)
  }

  predicate IsPermissionKey(k: string)
  {
    PERMISSIONS <= k
  }

  function SetStripe(cfg: StripePattern, k: string, v: string): (r: StripePattern)
  {
    if k == POOL then cfg.(storagePoolID := v)
    else if k == CHUNK then cfg.(chunkSize := v)
    else if k == TARGETS then cfg.(numTargets := v)
    else cfg
  }

  function SetPermission(cfg: Permissions, k: string, v: string): (r: Permissions)
    requires PermissionValueOk(k, v)
  {
    if k == UID then cfg.(uid := ParseUint(v, 10, LIMIT_32).value)
    else if k == GID then cfg.(gid := ParseUint(v, 10, LIMIT_32).value)
    else cfg.(mode := ParseUint(v, 8, LIMIT_12).value)
  }

  /** What has been parsed so far depends on the set of keys visited, not on their order. */
  function Restricted(m: map<string, string>, keys: set<string>): (r: map<string, string>)
  {
    map k | k in m && k in keys :: m[k]
  }

  lemma StripeVisit(m: map<string, string>, seen: set<string>, k: string)
    requires k in m && k !in seen
    ensures StripeOf(Restricted(m, seen + {k})) == SetStripe(StripeOf(Restricted(m, seen)), k, m[k])
  {
    LookupVisit(m, seen, k, POOL);
    LookupVisit(m, seen, k, CHUNK);
    LookupVisit(m, seen, k, TARGETS);
  }

  lemma LookupVisit(m: map<string, string>, seen: set<string>, k: string, q: string)
    requires k in m && k !in seen
    ensures Lookup(Restricted(m, seen + {k}), q) == if q == k then m[k] else Lookup(Restricted(m, seen), q)
  {
  }

  lemma PermissionVisit(m: map<string, string>, seen: set<string>, k: string)
    requires k in m && k !in seen && PermissionValueOk(k, m[k])
    ensures PermissionsOf(Restricted(m, seen + {k})) == SetPermission(PermissionsOf(Restricted(m, seen)), k, m[k])
  {
    NumberVisit(m, seen, k, UID, 10, LIMIT_32, 0);
    NumberVisit(m, seen, k, GID, 10, LIMIT_32, 0);
    NumberVisit(m, seen, k, MODE, 8, LIMIT_12, DEFAULT_MODE);
  }

  lemma NumberVisit(m: map<string, string>, seen: set<string>, k: string, q: string, base: nat, limit: nat, absent: nat)
    requires k in m && k !in seen
    ensures q != k ==>
      NumberOr(Restricted(m, seen + {k}), q, base, limit, absent)
      == NumberOr(Restricted(m, seen), q, base, limit, absent)
    ensures q == k && ParseUint(m[k], base, limit).Some? ==>
      NumberOr(Restricted(m, seen + {k}), q, base, limit, absent) == ParseUint(m[k], base, limit).value
  {
  }

  method GetStripePatternConfig(params: StringMap) returns (result: Option<StripePattern>)
    modifies params
    ensures result.Some? <==> forall k :: k in old(params.entries) && IsStripeKey(k) ==>
      StripeValueOk(k, old(params.entries)[k])
    ensures result.Some? ==> result.value == StripeOf(old(params.entries))
    ensures result.Some? ==>
      params.entries == map k | k in old(params.entries) && !IsStripeKey(k) :: old(params.entries)[k]
  {
    ghost var given := params.entries;
    var cfg := StripePattern("", "", "");
    var todo := params.entries.Keys;
    while todo != {}
      invariant todo <= given.Keys
      invariant params.entries == map k | k in given && !(k !in todo && IsStripeKey(k)) :: given[k]
      invariant cfg == StripeOf(Restricted(given, given.Keys - todo))
      invariant forall k :: k in given && k !in todo && IsStripeKey(k) ==> StripeValueOk(k, given[k])
      decreases todo
    {
      var k :| k in todo;
      StripeVisit(given, given.Keys - todo, k);
      assert given.Keys - todo + {k} == given.Keys - (todo - {k});
      todo := todo - {k};
      if IsStripeKey(k) {
        var v := params.entries[k];
        if !StripeValueOk(k, v) {
          return None;
        }
        cfg := SetStripe(cfg, k, v);
        params.entries := params.entries - {k};
      } else {
        NotAStripeKey(k);
      }
    }
    assert Restricted(given, given.Keys) == given;
    result := Some(cfg);
  }

  method GetPermissionsConfig(params: StringMap) returns (result: Option<Permissions>)
    modifies params
    ensures result.Some? <==> forall k :: k in old(params.entries) && IsPermissionKey(k) ==>
      PermissionValueOk(k, old(params.entries)[k])
    ensures result.Some? ==> result.value == PermissionsOf(old(params.entries))
    ensures result.Some? ==>
      params.entries == map k | k in old(params.entries) && !IsPermissionKey(k) :: old(params.entries)[k]
  {
    ghost var given := params.entries;
    var cfg := Permissions(0, 0, DEFAULT_MODE);
    var todo := params.entries.Keys;
    while todo != {}
      invariant todo <= given.Keys
      invariant params.entries == map k | k in given && !(k !in todo && IsPermissionKey(k)) :: given[k]
      invariant cfg == PermissionsOf(Restricted(given, given.Keys - todo))
      invariant forall k :: k in given && k !in todo && IsPermissionKey(k) ==> PermissionValueOk(k, given[k])
      decreases todo
    {
      var k :| k in todo;
      assert given.Keys - todo + {k} == given.Keys - (todo - {k});
      if IsPermissionKey(k) {
        var v := params.entries[k];
        if !PermissionValueOk(k, v) {
          return None;
        }
        PermissionVisit(given, given.Keys - todo, k);
        cfg := SetPermission(cfg, k, v);
        params.entries := params.entries - {k};
      } else {
        PermissionSkip(given, given.Keys - todo, k);
      }
      todo := todo - {k};
    }
    assert Restricted(given, given.Keys) == given;
    result := Some(cfg);
  }

  lemma PermissionSkip(m: map<string, string>, seen: set<string>, k: string)
    requires k in m && k !in seen && !IsPermissionKey(k)
    ensures PermissionsOf(Restricted(m, seen + {k})) == PermissionsOf(Restricted(m, seen))
  {
    PermissionKeys();
    NumberVisit(m, seen, k, UID, 10, LIMIT_32, 0);
    NumberVisit(m, seen, k, GID, 10, LIMIT_32, 0);
    NumberVisit(m, seen, k, MODE, 8, LIMIT_12, DEFAULT_MODE);
  }

  lemma PermissionKeys()
    ensures IsPermissionKey(UID) && IsPermissionKey(GID) && IsPermissionKey(MODE)
  {
    assert UID[..12] == PERMISSIONS && GID[..12] == PERMISSIONS && MODE[..12] == PERMISSIONS;
  }

  lemma StripeKeys()
    ensures IsStripeKey(POOL) && IsStripeKey(CHUNK) && IsStripeKey(TARGETS)
  {
    assert POOL[..14] == STRIPE && CHUNK[..14] == STRIPE && TARGETS[..14] == STRIPE;
  }

  lemma NotAStripeKey(k: string)
    requires !IsStripeKey(k)
    ensures k != POOL && k != CHUNK && k != TARGETS
  {
    StripeKeys();
  }

  /** No other known parameter is taken for a stripe parameter. */
  lemma OtherKeys(k: string)
    requires k == HOST || k == BASE_PATH || k == UID || k == GID || k == MODE
    ensures !IsStripeKey(k)
  {
    NeverStarts(k, STRIPE);
  }

  /** How the two parsers together judge a parameter that is neither the host nor the base path. */
  predicate KeyOk(k: string, v: string)
  {
    if IsStripeKey(k) then StripeValueOk(k, v) else IsPermissionKey(k) && PermissionValueOk(k, v)
  }

  lemma KeyOkMeaning(k: string, v: string)
    requires k != HOST && k != BASE_PATH
    ensures KeyOk(k, v) <==>
      (k in {POOL, CHUNK, TARGETS} && StripeValueOk(k, v)) || (k in {UID, GID, MODE} && PermissionValueOk(k, v))
  {
    StripeKeys();
    PermissionKeys();
    if k == UID || k == GID || k == MODE {
      OtherKeys(k);
    }
  }

  lemma ValidParamsByKey(m: map<string, string>)
    ensures ValidParams(m) <==>
      && HOST in m && m[HOST] != "" && BASE_PATH in m
      && forall k :: k in m && k != HOST && k != BASE_PATH ==> KeyOk(k, m[k])
  {
    forall k | k in m && k != HOST && k != BASE_PATH
      ensures KeyOk(k, m[k]) <==> (k in {POOL, CHUNK, TARGETS} && StripeValueOk(k, m[k]))
                                  || (k in {UID, GID, MODE} && PermissionValueOk(k, m[k]))
    {
      KeyOkMeaning(k, m[k]);
    }
    assert {POOL, CHUNK, TARGETS} !! {UID, GID, MODE, HOST, BASE_PATH};
    assert {UID, GID, MODE} !! {HOST, BASE_PATH};
  }

  /** Everything after the host and the base path: both parsers, then the check that nothing is left. */
  method GetRemainingConfig(params: StringMap) returns (result: Option<(StripePattern, Permissions)>)
    modifies params
    ensures result.Some? <==> forall k :: k in old(params.entries) ==> KeyOk(k, old(params.entries)[k])
    ensures result.Some? ==> params.entries == map[]
    ensures result.Some? ==> result.value == (StripeOf(old(params.entries)), PermissionsOf(old(params.entries)))
  {
    ghost var rest := params.entries;
    var stripe := GetStripePatternConfig(params);
    if stripe.None? {
      return None;
    }
    ghost var left := params.entries;
    var permissions := GetPermissionsConfig(params);
    if permissions.None? {
      assert forall k :: k in left ==> k in rest && !IsStripeKey(k) && left[k] == rest[k];
      return None;
    }
    if params.entries != map[] {
      ghost var k :| k in params.entries;
      assert !KeyOk(k, rest[k]);
      return None;
    }
    forall k | k in rest ensures KeyOk(k, rest[k]) {
      assert k !in params.entries;
      assert !IsStripeKey(k) ==> k in left;
    }
    SamePermissions(rest, left);
    result := Some((stripe.value, permissions.value));
  }

  /** Accepts exactly the valid parameters, in any visiting order, and then leaves the caller's map empty. */
  method ValidateReqParams(params: StringMap) returns (result: Option<ReqParameters>)
    modifies params
    ensures result.Some? <==> ValidParams(old(params.entries))
    ensures result.Some? ==> result.value == ParamsOf(old(params.entries)) && params.entries == map[]
    ensures result.Some? ==> IsClean(result.value.basePath)
  {
    ghost var given := params.entries;
    ValidParamsByKey(given);
    if HOST !in params.entries || params.entries[HOST] == "" {
      return None;
    }
    var host := params.entries[HOST];
    params.entries := params.entries - {HOST};
    if BASE_PATH !in params.entries {
      return None;
    }
    var basePath := CleanPath(params.entries[BASE_PATH]);
    params.entries := params.entries - {BASE_PATH};
    ghost var rest := params.entries;
    assert forall k :: k in rest <==> k in given && k != HOST && k != BASE_PATH;
    var remaining := GetRemainingConfig(params);
    if remaining.None? {
      return None;
    }
    SameFields(given, rest);
    CleanedIsClean(Split(given[BASE_PATH]));
    result := Some(ReqParameters(host, basePath, remaining.value.0, remaining.value.1));
  }

  lemma SameFields(given: map<string, string>, rest: map<string, string>)
    requires rest == given - {HOST} - {BASE_PATH}
    ensures StripeOf(rest) == StripeOf(given) && PermissionsOf(rest) == PermissionsOf(given)
  {
    var all := [POOL, CHUNK, TARGETS, UID, GID, MODE];
    forall i | 0 <= i < 6 ensures all[i] in rest <==> all[i] in given {
      assert all[i] != HOST && all[i] != BASE_PATH;
    }
    assert all[0] == POOL && all[1] == CHUNK && all[2] == TARGETS && all[3] == UID && all[4] == GID && all[5] == MODE;
  }

  lemma SamePermissions(rest: map<string, string>, left: map<string, string>)
    requires left == map k | k in rest && !IsStripeKey(k) :: rest[k]
    ensures PermissionsOf(left) == PermissionsOf(rest)
  {
    OtherKeys(UID);
    OtherKeys(GID);
    OtherKeys(MODE);
  }

  // ---- What the parameters mean --------------------------------------------------------------------------------

  const DIGITS := "0123456789"

  function Power(base: nat, n: nat): (r: nat)
  {
    if n == 0 then 1 else base * Power(base, n - 1)
  }

  /** The position of a character among the digits, or ten. */
  function DigitValue(c: char): (d: nat)
    ensures d <= 10 && (d < 10 ==> DIGITS[d] == c) && (d == 10 ==> c !in DIGITS)
  {
    if c in DIGITS then c as int - '0' as int else 10
  }

  /** The sum of the digits times their powers of the base. */
  function Positional(s: string, base: nat): (n: nat)
  {
    if s == "" then 0 else DigitValue(s[0]) * Power(base, |s| - 1) + Positional(s[1..], base)
  }

  /** The string is a numeral to this base, and this is the number. */
  ghost predicate Denotes(s: string, base: nat, n: nat)
  {
    s != "" && (forall i :: 0 <= i < |s| ==> DigitValue(s[i]) < base) && n == Positional(s, base)
  }

  lemma {:induction false} PositionalSnoc(s: string, c: char, base: nat)
    ensures Positional(s + [c], base) == Positional(s, base) * base + DigitValue(c)
  {
    if s == "" {
      assert [c][1..] == "" && s + [c] == [c];
    } else {
      var rest, p := Positional(s[1..], base), Power(base, |s| - 1);
      PositionalSnoc(s[1..], c, base);
      assert (s + [c])[1..] == s[1..] + [c] && (s + [c])[0] == s[0];
      assert Power(base, |s|) == base * p;
      OneMoreDigit(DigitValue(s[0]), p, rest, base, DigitValue(c));
    }
  }

  lemma OneMoreDigit(d: nat, p: nat, rest: nat, base: nat, last: nat)
    ensures d * (base * p) + (rest * base + last) == (d * p + rest) * base + last
  {
    assert d * (base * p) == (d * p) * base;
    assert (d * p + rest) * base == (d * p) * base + rest * base;
  }

  lemma {:induction false} NumeralIsPositional(s: string, base: nat)
    requires base <= 10 && forall i :: 0 <= i < |s| ==> DigitValue(s[i]) < base
    ensures (forall i :: 0 <= i < |s| ==> 0 <= Digit(s[i]) < base) && Numeral(s, base) == Positional(s, base)
  {
    if s != "" {
      var init, last := s[..|s| - 1], s[|s| - 1];
      NumeralIsPositional(init, base);
      PositionalSnoc(init, last, base);
      assert s == init + [last] && Digit(last) == DigitValue(last);
    }
  }

  /** A number is parsed exactly from its numerals, if it is small enough. */
  lemma ParseUintExactly(s: string, base: nat, limit: nat)
    requires base == 8 || base == 10
    ensures ParseUint(s, base, limit).Some? <==> exists n: nat :: n < limit && Denotes(s, base, n)
    ensures ParseUint(s, base, limit).Some? ==> Denotes(s, base, ParseUint(s, base, limit).value)
  {
    if s != "" && forall i :: 0 <= i < |s| ==> DigitValue(s[i]) < base {
      NumeralIsPositional(s, base);
      assert Denotes(s, base, Positional(s, base));
    }
    if IsNumeral(s, base) {
      forall i | 0 <= i < |s| ensures DigitValue(s[i]) == Digit(s[i]) {
        assert DIGITS[Digit(s[i])] == s[i];
      }
    }
  }

  /** This parameter is absent and the number is the default, or it is the numeral of the number. */
  ghost predicate NumberIs(m: map<string, string>, k: string, base: nat, limit: nat, absent: nat, n: nat)
  {
    if k in m then n < limit && Denotes(m[k], base, n) else n == absent
  }

  /** The result in terms of the parameters' own names: what is absent is empty, zero, or mode 0777. */
  lemma ParamsMean(m: map<string, string>)
    requires ValidParams(m)
    ensures
      var r := ParamsOf(m);
      && "sysMgmtdHost" in m && r.host == m["sysMgmtdHost"] != ""
      && "volDirBasePath" in m && r.basePath == CleanPath(m["volDirBasePath"])
      && r.stripe.storagePoolID == Lookup(m, "stripePattern/storagePoolID")
      && r.stripe.chunkSize == Lookup(m, "stripePattern/chunkSize")
      && r.stripe.numTargets == Lookup(m, "stripePattern/numTargets")
      && NumberIs(m, "permissions/uid", 10, 0x1_0000_0000, 0, r.permissions.uid)
      && NumberIs(m, "permissions/gid", 10, 0x1_0000_0000, 0, r.permissions.gid)
      && NumberIs(m, "permissions/mode", 8, 0x1000, 7 * 64 + 7 * 8 + 7, r.permissions.mode)
  {
    NumberMeans(m, UID, 10, LIMIT_32, 0);
    NumberMeans(m, GID, 10, LIMIT_32, 0);
    NumberMeans(m, MODE, 8, LIMIT_12, DEFAULT_MODE);
  }

  lemma NumberMeans(m: map<string, string>, k: string, base: nat, limit: nat, absent: nat)
    requires base == 8 || base == 10
    requires k in m ==> ParseUint(m[k], base, limit).Some?
    ensures NumberIs(m, k, base, limit, absent, NumberOr(m, k, base, limit, absent))
  {
    if k in m {
      ParseUintExactly(m[k], base, limit);
    }
  }

  ghost predicate IsNumber(m: map<string, string>, k: string, base: nat, limit: nat)
  {
    k in m ==> exists n: nat :: n < limit && Denotes(m[k], base, n)
  }

  ghost predicate IsEmptyOrNumber(m: map<string, string>, k: string)
  {
    k in m ==> m[k] == "" || exists n: nat :: n < 0x1_0000 && Denotes(m[k], 10, n)
  }

  /** Digits, at least one, and then a letter. */
  ghost predicate IsEmptyOrSize(m: map<string, string>, k: string)
  {
    k in m ==>
      || m[k] == ""
      || exists digits: string, n: nat, unit: char :: m[k] == digits + [unit] && Denotes(digits, 10, n)
                                  && ('a' <= unit <= 'z' || 'A' <= unit <= 'Z')
  }

  lemma ChunkSizeExactly(m: map<string, string>, k: string)
    ensures IsEmptyOrSize(m, k) <==> (k in m ==> m[k] == "" || IsChunkSize(m[k]))
  {
    if k in m && IsChunkSize(m[k]) {
      var v := m[k];
      var digits, unit := v[..|v| - 1], v[|v| - 1];
      ParseUintExactly(digits, 10, Numeral(digits, 10) + 1);
      assert v == digits + [unit] && Denotes(digits, 10, Positional(digits, 10));
    }
    if k in m && IsEmptyOrSize(m, k) && m[k] != "" {
      var digits: string, n: nat, unit: char :| m[k] == digits + [unit] && Denotes(digits, 10, n)
        && ('a' <= unit <= 'z' || 'A' <= unit <= 'Z');
      ParseUintExactly(digits, 10, n + 1);
      assert m[k][..|m[k]| - 1] == digits;
    }
  }

  /** Which parameters are valid, in terms of their own names. */
  lemma ValidParamsExactly(m: map<string, string>)
    ensures
      ValidParams(m) <==>
        && (forall k :: k in m ==> k in {
              "sysMgmtdHost", "volDirBasePath", "stripePattern/storagePoolID", "stripePattern/chunkSize",
              "stripePattern/numTargets", "permissions/uid", "permissions/gid", "permissions/mode"})
        && "sysMgmtdHost" in m && m["sysMgmtdHost"] != "" && "volDirBasePath" in m
        && IsEmptyOrNumber(m, "stripePattern/storagePoolID") && IsEmptyOrNumber(m, "stripePattern/numTargets")
        && IsEmptyOrSize(m, "stripePattern/chunkSize")
        && IsNumber(m, "permissions/uid", 10, 0x1_0000_0000) && IsNumber(m, "permissions/gid", 10, 0x1_0000_0000)
        && IsNumber(m, "permissions/mode", 8, 0x1000)
  {
    StripeExactly(m);
    PermissionsExactly(m);
  }

  lemma StripeExactly(m: map<string, string>)
    ensures
      (forall k :: k in m && k in {POOL, CHUNK, TARGETS} ==> StripeValueOk(k, m[k])) <==>
        IsEmptyOrNumber(m, POOL) && IsEmptyOrNumber(m, TARGETS) && IsEmptyOrSize(m, CHUNK)
  {
    KeysDiffer();
    ChunkSizeExactly(m, CHUNK);
    NumberExactly(m, POOL, 10, LIMIT_16);
    NumberExactly(m, TARGETS, 10, LIMIT_16);
  }

  lemma PermissionsExactly(m: map<string, string>)
    ensures
      (forall k :: k in m && k in {UID, GID, MODE} ==> PermissionValueOk(k, m[k])) <==>
        IsNumber(m, UID, 10, LIMIT_32) && IsNumber(m, GID, 10, LIMIT_32) && IsNumber(m, MODE, 8, LIMIT_12)
  {
    KeysDiffer();
    NumberExactly(m, UID, 10, LIMIT_32);
    NumberExactly(m, GID, 10, LIMIT_32);
    NumberExactly(m, MODE, 8, LIMIT_12);
  }

  lemma NumberExactly(m: map<string, string>, k: string, base: nat, limit: nat)
    requires base == 8 || base == 10
    ensures k in m ==> (ParseUint(m[k], base, limit).Some? <==> exists n: nat :: n < limit && Denotes(m[k], base, n))
  {
    if k in m {
      ParseUintExactly(m[k], base, limit);
    }
  }

  lemma KeysDiffer()
    ensures POOL != TARGETS && POOL != CHUNK && CHUNK != TARGETS && UID != GID && UID != MODE && GID != MODE
  {
    assert |POOL| == 27 && |CHUNK| == 23 && |TARGETS| == 24 && |MODE| == 16 && |UID| == 15 && |GID| == 15;
    assert UID[12] == 'u' && GID[12] == 'g';
  }
}
