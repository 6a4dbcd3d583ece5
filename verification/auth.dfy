/**
 * Member helpers of the authentication router: the age-range label of a
 * Kakao login, the age label and gender default of `/api/me`, the field
 * whitelist of `/api/change-info`, and the in-memory e-mail code store behind
 * `/api/send-code` and `/api/verify-code`.
 */
module Auth {
  import opened Js
  import opened Upstream

  // ---------------------------------------------------------------------
  // Age-range labels

  const UnderTen := "10대 미만"
  const EightyAndOver := "80대 이상"

  /** `${Math.floor(n / 10) * 10}대` for a non-negative `n`. */
  function DecadeLabel(n: nat): string
  {
    NatToString(n / 10 * 10) + "대"
  }

  /** The length of the longest all-digit prefix. */
  function LeadingDigits(s: string): (k: nat)
    ensures k <= |s| && AllDigits(s[..k]) && (k < |s| ==> !IsDigit(s[k]))
  {
    if s == [] || !IsDigit(s[0]) then 0
    else
      var k := LeadingDigits(s[1..]);
      assert s[..k + 1] == [s[0]] + s[1..][..k];
      k + 1
  }

  /** The length of the longest all-whitespace prefix. */
  function LeadingSpaces(s: string): (k: nat)
    ensures k <= |s| && AllSpace(s[..k]) && (k < |s| ==> !IsSpace(s[k]))
  {
    if s == [] || !IsSpace(s[0]) then 0
    else
      var k := LeadingSpaces(s[1..]);
      assert s[..k + 1] == [s[0]] + s[1..][..k];
      k + 1
  }

  lemma {:induction false} LeadingDigitsExact(s: string, n: nat)
    requires n <= |s| && AllDigits(s[..n]) && (n < |s| ==> !IsDigit(s[n]))
    ensures LeadingDigits(s) == n
  {
    if n > 0 {
      assert s[1..][..n - 1] == s[..n][1..];
      assert IsDigit(s[..n][0]);
      LeadingDigitsExact(s[1..], n - 1);
    }
  }

  lemma {:induction false} LeadingSpacesExact(s: string, n: nat)
    requires n <= |s| && AllSpace(s[..n]) && (n < |s| ==> !IsSpace(s[n]))
    ensures LeadingSpaces(s) == n
  {
    if n > 0 {
      assert s[1..][..n - 1] == s[..n][1..];
      assert IsSpace(s[..n][0]);
      LeadingSpacesExact(s[1..], n - 1);
    }
  }

  /** A match of `^(\d+)\s*~\s*(\d+)$`: the two digit groups and the
      whitespace around the tilde. */
  datatype RangeMatch = RangeMatch(first: string, gap1: string, gap2: string, second: string)

  predicate WellFormed(m: RangeMatch)
  {
    |m.first| > 0 && AllDigits(m.first) && AllSpace(m.gap1) && AllSpace(m.gap2)
    && |m.second| > 0 && AllDigits(m.second)
  }

  /** What follows the first digit run: the gaps and the second run. */
  function TailText(gap1: string, gap2: string, second: string): string
  {
    gap1 + ("~" + (gap2 + second))
  }

  function Text(m: RangeMatch): string
  {
    m.first + TailText(m.gap1, m.gap2, m.second)
  }

  /** `\s*~\s*(\d+)$` run on what follows the first digit run. */
  function MatchTail(rest: string): Option<(string, string, string)>
  {
    var j := LeadingSpaces(rest);
    var rest2 := rest[j..];
    if rest2 == [] || rest2[0] != '~' then None
    else
      var rest3 := rest2[1..];
      var j2 := LeadingSpaces(rest3);
      var tail := rest3[j2..];
      if tail != [] && AllDigits(tail) then Some((rest[..j], rest3[..j2], tail)) else None
  }

  /** The regular expression run on `s`: the longest digit run, then the
      rest of the pattern. */
  function MatchRange(s: string): Option<RangeMatch>
  {
    var k := LeadingDigits(s);
    if k == 0 then None
    else
      match MatchTail(s[k..])
      case None => None
      case Some(t) => Some(RangeMatch(s[..k], t.0, t.1, t.2))
  }

  lemma MatchTailSound(rest: string)
    ensures var t := MatchTail(rest);
      t.Some? ==> AllSpace(t.value.0) && AllSpace(t.value.1) && t.value.2 != [] && AllDigits(t.value.2)
                  && rest == TailText(t.value.0, t.value.1, t.value.2)
  {
    if MatchTail(rest).Some? {
      MatchTailSpellsBack(rest);
    }
  }

  /** The three parts of a tail match, put back together, are the input. */
  lemma MatchTailSpellsBack(rest: string)
    requires MatchTail(rest).Some?
    ensures var t := MatchTail(rest).value; rest == TailText(t.0, t.1, t.2)
  {
    var j := LeadingSpaces(rest);
    var rest3 := rest[j..][1..];
    var j2 := LeadingSpaces(rest3);
    assert MatchTail(rest).value == (rest[..j], rest3[..j2], rest3[j2..]);
    SplitAround(rest, j, rest3, j2);
  }

  /** A string is its prefix, a tilde and the two parts of what follows. */
  lemma SplitAround(s: string, j: nat, after: string, j2: nat)
    requires j < |s| && s[j] == '~' && after == s[j..][1..] && j2 <= |after|
    ensures s == TailText(s[..j], after[..j2], after[j2..])
  {
    assert after[..j2] + after[j2..] == after;
    assert s[..j] + ([s[j]] + after) == s;
  }

  lemma MatchTailComplete(gap1: string, gap2: string, second: string)
    requires AllSpace(gap1) && AllSpace(gap2) && second != [] && AllDigits(second)
    ensures MatchTail(TailText(gap1, gap2, second)) == Some((gap1, gap2, second))
  {
    var rest := TailText(gap1, gap2, second);
    assert rest[..|gap1|] == gap1;
    assert rest[|gap1|] == '~';
    LeadingSpacesExact(rest, |gap1|);
    var rest3 := rest[|gap1|..][1..];
    assert rest3 == gap2 + second;
    assert rest3[..|gap2|] == gap2;
    assert rest3[|gap2|] == second[0];
    assert IsDigit(second[0]);
    LeadingSpacesExact(rest3, |gap2|);
    assert rest3[|gap2|..] == second;
  }

  /** Every match has the shape and spells the input back. */
  lemma MatchRangeSound(s: string)
    ensures MatchRange(s).Some? ==> WellFormed(MatchRange(s).value) && Text(MatchRange(s).value) == s
  {
    var k := LeadingDigits(s);
    if k > 0 {
      MatchTailSound(s[k..]);
      assert s == s[..k] + s[k..];
    }
  }

  /** Every string of the shape is matched, with these very groups. */
  lemma MatchRangeComplete(m: RangeMatch)
    requires WellFormed(m)
    ensures MatchRange(Text(m)) == Some(m)
  {
    var s := Text(m);
    var n := |m.first|;
    var tail := TailText(m.gap1, m.gap2, m.second);
    assert s[..n] == m.first;
    assert s[n..] == tail;
    assert s[n] == tail[0];
    assert !IsDigit(tail[0]) by {
      if m.gap1 != [] {
        assert tail[0] == m.gap1[0];
      } else {
        assert tail[0] == '~';
      }
    }
    LeadingDigitsExact(s, n);
    MatchTailComplete(m.gap1, m.gap2, m.second);
  }

  /** `toKoreanDecadeLabel`: `''` for a missing or empty range, the range
      itself when it does not match, else the label of its first number. */
  function ToKoreanDecadeLabel(kakaoAgeRange: Option<string>): string
  {
    if kakaoAgeRange.None? || kakaoAgeRange.value == "" then ""
    else
      match MatchRange(kakaoAgeRange.value)
      case None => kakaoAgeRange.value
      case Some(m) =>
        var start := DigitsValue(m.first);
        if start < 10 then UnderTen else DecadeLabel(start)
  }

  /**
   * The label of a range `a~b` (with any whitespace around the tilde) is
   * `10대 미만` below ten and otherwise the decade of `a`; the second number
   * plays no part.
   */
  lemma {:induction false} RangeLabel(a: nat, b: nat, gap1: string, gap2: string)
    requires AllSpace(gap1) && AllSpace(gap2)
    ensures ToKoreanDecadeLabel(Some(NatToString(a) + TailText(gap1, gap2, NatToString(b))))
            == if a < 10 then UnderTen else DecadeLabel(a)
  {
    var m := RangeMatch(NatToString(a), gap1, gap2, NatToString(b));
    MatchRangeComplete(m);
    NatToStringRoundTrip(a);
  }

  /** Text that does not have the shape of a range comes back unchanged, and
      a missing or empty range gives `''`. */
  lemma UnmatchedLabel(s: string)
    ensures s == "" ==> ToKoreanDecadeLabel(Some(s)) == ""
    ensures ToKoreanDecadeLabel(None) == ""
    ensures (forall m :: WellFormed(m) ==> Text(m) != s) ==> ToKoreanDecadeLabel(Some(s)) == s
  {
    MatchRangeSound(s);
  }

  /** `calcAgeRange(n)`: `Number(n)` and its decade, with `''` for NaN and
      the open-ended labels below ten and from eighty. */
  function CalcAgeRange(n: Value): string
  {
    match ToNumber(n)
    case None => ""
    case Some(x) =>
      if x < 10 then UnderTen
      else if x >= 80 then EightyAndOver
      else DecadeLabel(x)
  }

  /**
   * The age label from a stored age agrees with the label of any range that
   * starts at that age, from ten to seventy-nine and below ten; from eighty
   * on the age gives `80대 이상` where the range gives its own decade.
   */
  lemma AgeAndRangeLabelsAgree(age: nat, b: nat)
    ensures age < 80 ==> CalcAgeRange(Num(age)) == ToKoreanDecadeLabel(Some(NatToString(age) + "~" + NatToString(b)))
    ensures age >= 80 ==> (CalcAgeRange(Num(age)) == EightyAndOver
      && ToKoreanDecadeLabel(Some(NatToString(age) + "~" + NatToString(b))) == DecadeLabel(age))
  {
    var text := NatToString(age) + "~" + NatToString(b);
    PlainRangeText(NatToString(age), NatToString(b));
    RangeLabel(age, b, "", "");
    assert ToKoreanDecadeLabel(Some(text)) == if age < 10 then UnderTen else DecadeLabel(age);
    assert ToNumber(Num(age)) == Some(age as int);
  }

  /** `a~b` is the range text with no whitespace around the tilde. */
  lemma PlainRangeText(first: string, second: string)
    ensures first + "~" + second == first + TailText("", "", second)
  {
    assert TailText("", "", second) == "~" + second;
  }

  /** Age labels: NaN gives `''`, every number a non-empty label. */
  lemma CalcAgeRangeCases(n: Value)
    ensures ToNumber(n).None? <==> CalcAgeRange(n) == ""
    ensures n.Undefined? ==> CalcAgeRange(n) == ""
    ensures n.Null? ==> CalcAgeRange(n) == UnderTen
  {
  }

  /** `user.ageRange && user.ageRange.trim() ? user.ageRange : calcAgeRange(user.age)`;
      `None` when the stored range is truthy but not a string, which throws. */
  function AgeRangeOut(ageRange: Value, age: Value): (r: Option<string>)
  {
    if !Truthy(ageRange) then Some(CalcAgeRange(age))
    else if !ageRange.Str? then None
    else if Blank(ageRange.s) then Some(CalcAgeRange(age))
    else Some(ageRange.s)
  }

  /** A stored range that is non-blank is shown as stored, untrimmed;
      otherwise the label is computed from the age. */
  lemma AgeRangeOutSpec(ageRange: string, age: Value)
    ensures !Blank(ageRange) ==> AgeRangeOut(Str(ageRange), age) == Some(ageRange)
    ensures Blank(ageRange) ==> AgeRangeOut(Str(ageRange), age) == Some(CalcAgeRange(age))
    ensures AgeRangeOut(Undefined, age) == Some(CalcAgeRange(age))
  {
    if ageRange == "" {
      assert Blank(ageRange);
    }
  }

  /** `gender` of `/api/me`: a stored `male` or `female`, else `male`. */
  function GenderOut(gender: Value): (r: string)
    ensures r == "male" || r == "female"
    ensures gender == Str("female") ==> r == "female"
    ensures gender != Str("female") ==> r == "male"
  {
    if gender == Str("male") || gender == Str("female") then gender.s else "male"
  }

  // ---------------------------------------------------------------------
  // The profile update

  /** The fields `/api/change-info` may change. */
  datatype Field = Nickname | AgeRange | Email | Name | Gender

  /** The body property a field is read from and the key it is written
      under. */
  function Key(f: Field): string
  {
    match f
    case Nickname => "nickname"
    case AgeRange => "ageRange"
    case Email => "email"
    case Name => "name"
    case Gender => "gender"
  }

  /** `(req.body && typeof req.body === 'object') ? req.body : {}` */
  function BodyObject(body: Value): Value
  {
    if Truthy(body) && (body.Obj? || body.Arr?) then body else Obj(map[])
  }

  /** A non-blank string field, trimmed. */
  function TrimmedText(v: Value): Option<string>
  {
    if v.Str? && !Blank(v.s) then Some(Trim(v.s)) else None
  }

  /**
   * What the update set holds for one field of the body: nickname and name
   * when non-blank, trimmed; the e-mail when non-blank, trimmed and
   * lower-cased; `ageRange` whenever it is a string, trimmed even to empty;
   * gender only as `male` or `female`.
   */
  function FieldUpdate(b: Value, f: Field): Option<string>
  {
    var v := Get(b, Key(f));
    match f
    case Nickname => TrimmedText(v)
    case Name => TrimmedText(v)
    case Email => if TrimmedText(v).Some? then Some(ToLower(TrimmedText(v).value)) else None
    case AgeRange => if v.Str? then Some(Trim(v.s)) else None
    case Gender => if v == Str("male") || v == Str("female") then Some(v.s) else None
  }

  const AllFields: set<Field> := {Nickname, AgeRange, Email, Name, Gender}

  /** The update set for a request body: every field with a valid value,
      holding that value. */
  function UpdatesFor(body: Value): map<Field, string>
  {
    var b := BodyObject(body);
    map f | f in AllFields && FieldUpdate(b, f).Some? :: FieldUpdate(b, f).value
  }

  lemma UpdatesExact(body: Value, f: Field)
    ensures f in UpdatesFor(body) <==> FieldUpdate(BodyObject(body), f).Some?
    ensures f in UpdatesFor(body) ==> UpdatesFor(body)[f] == FieldUpdate(BodyObject(body), f).value
  {
    assert f in AllFields;
  }

  /** A trimmed non-blank string is non-empty and trims to itself. */
  lemma TrimmedTextNormal(s: string)
    requires !Blank(s)
    ensures Trim(Trim(s)) == Trim(s) && Trim(s) != ""
  {
    TrimIdempotent(s);
  }

  /** A lower-cased trimmed non-blank string is non-empty, trims to itself
      and lower-cases to itself. */
  lemma EmailNormal(s: string)
    requires !Blank(s)
    ensures var v := ToLower(Trim(s)); Trim(v) == v && v != "" && ToLower(v) == v
  {
    var t := Trim(s);
    TrimIdempotent(s);
    TrimLower(t);
    LowerIdempotent(t);
  }

  /** A value the update set holds is non-blank and trimmed, except an
      `ageRange`, which is trimmed but may be empty; an e-mail is lower case
      and a gender is `male` or `female`. */
  lemma FieldUpdateNormal(b: Value, f: Field)
    requires FieldUpdate(b, f).Some?
    ensures var v := FieldUpdate(b, f).value;
      && Trim(v) == v
      && (f != AgeRange ==> v != "")
      && (f == Email ==> ToLower(v) == v)
      && (f == Gender ==> v == "male" || v == "female")
  {
    var raw := Get(b, Key(f));
    match f
    case Nickname => TrimmedTextNormal(raw.s);
    case Name => TrimmedTextNormal(raw.s);
    case AgeRange => TrimIdempotent(raw.s);
    case Email => EmailNormal(raw.s);
    case Gender =>
      TrimUnpadded(raw.s);
  }

  /** What every value of an update set satisfies. */
  predicate NormalValue(f: Field, v: string)
  {
    && Trim(v) == v
    && (f != AgeRange ==> v != "")
    && (f == Email ==> ToLower(v) == v)
    && (f == Gender ==> v == "male" || v == "female")
  }

  lemma UpdatedValues(body: Value)
    ensures forall f :: f in UpdatesFor(body) ==> NormalValue(f, UpdatesFor(body)[f])
  {
    forall f | f in UpdatesFor(body)
      ensures NormalValue(f, UpdatesFor(body)[f])
    {
      UpdatesExact(body, f);
      FieldUpdateNormal(BodyObject(body), f);
    }
  }

  /** The update set written back as a body. */
  function Resubmitted(u: map<Field, string>): Value
  {
    Obj(map k | k in {"nickname", "ageRange", "email", "name", "gender"} && ResubmittedField(u, k).Some? ::
          ResubmittedField(u, k).value)
  }

  function ResubmittedField(u: map<Field, string>, k: string): Option<Value>
  {
    if k == "nickname" && Nickname in u then Some(Str(u[Nickname]))
    else if k == "ageRange" && AgeRange in u then Some(Str(u[AgeRange]))
    else if k == "email" && Email in u then Some(Str(u[Email]))
    else if k == "name" && Name in u then Some(Str(u[Name]))
    else if k == "gender" && Gender in u then Some(Str(u[Gender]))
    else None
  }

  lemma GetResubmitted(u: map<Field, string>, f: Field)
    ensures Get(Resubmitted(u), Key(f)) == if f in u then Str(u[f]) else Undefined
  {
    match f
    case Nickname =>
    case AgeRange =>
    case Email =>
    case Name =>
    case Gender =>
  }

  /** A trimmed non-empty string is kept as it is by the text check. */
  lemma TrimmedTextFixed(x: string)
    requires Trim(x) == x && x != ""
    ensures TrimmedText(Str(x)) == Some(x)
  {
  }

  /** One field of a resubmitted update set reads back as the value it
      holds. */
  lemma ResubmittedFieldUpdate(u: map<Field, string>, f: Field)
    requires forall g :: g in u ==> NormalValue(g, u[g])
    ensures FieldUpdate(Resubmitted(u), f) == if f in u then Some(u[f]) else None
  {
    GetResubmitted(u, f);
    if f in u {
      assert NormalValue(f, u[f]);
      if f == Nickname || f == Name || f == Email {
        TrimmedTextFixed(u[f]);
      }
    }
  }

  /** Submitting an update set again as the body yields the same update set:
      the normalisations are idempotent. */
  lemma UpdatesIdempotent(body: Value)
    ensures UpdatesFor(Resubmitted(UpdatesFor(body))) == UpdatesFor(body)
  {
    UpdatedValues(body);
    ResubmittedRoundTrip(UpdatesFor(body));
  }

  /** An update set whose values are all normal is what it reads back as
      once written as a body. */
  lemma ResubmittedRoundTrip(u: map<Field, string>)
    requires forall g :: g in u ==> NormalValue(g, u[g])
    ensures UpdatesFor(Resubmitted(u)) == u
  {
    var w := UpdatesFor(Resubmitted(u));
    forall f
      ensures f in w <==> f in u
      ensures f in u ==> w[f] == u[f]
    {
      ResubmittedUpdates(u, f);
    }
    assert w.Keys == u.Keys;
  }

  /** A field of an update set whose values are all normal survives
      resubmission with its value, and no other field appears. */
  lemma ResubmittedUpdates(u: map<Field, string>, f: Field)
    requires forall g :: g in u ==> NormalValue(g, u[g])
    ensures f in UpdatesFor(Resubmitted(u)) <==> f in u
    ensures f in u ==> UpdatesFor(Resubmitted(u))[f] == u[f]
  {
    assert BodyObject(Resubmitted(u)) == Resubmitted(u);
    UpdatesExact(Resubmitted(u), f);
    ResubmittedFieldUpdate(u, f);
  }

  /** The position at which the handler considers a field. */
  function Position(f: Field): (i: nat)
    ensures i < 5
  {
    match f
    case Nickname => 0
    case AgeRange => 1
    case Email => 2
    case Name => 3
    case Gender => 4
  }

  /** `u` holds, among the first `n` fields, those for which the body `b`
      has a valid value, with that value. */
  predicate Considered(u: map<Field, string>, b: Value, n: nat)
  {
    && ConsideredField(u, b, n, Nickname)
    && ConsideredField(u, b, n, AgeRange)
    && ConsideredField(u, b, n, Email)
    && ConsideredField(u, b, n, Name)
    && ConsideredField(u, b, n, Gender)
  }

  predicate ConsideredField(u: map<Field, string>, b: Value, n: nat, f: Field)
  {
    && (f in u <==> Position(f) < n && FieldUpdate(b, f).Some?)
    && (f in u ==> u[f] == FieldUpdate(b, f).value)
  }

  lemma ConsideredAt(u: map<Field, string>, b: Value, n: nat, f: Field)
    requires Considered(u, b, n)
    ensures ConsideredField(u, b, n, f)
  {
    match f
    case Nickname =>
    case AgeRange =>
    case Email =>
    case Name =>
    case Gender =>
  }

  /** Considering the next field adds its value, if any. */
  lemma ConsiderNext(u: map<Field, string>, u': map<Field, string>, b: Value, g: Field, n: nat)
    requires Position(g) == n && Considered(u, b, n)
    requires u' == if FieldUpdate(b, g).Some? then u[g := FieldUpdate(b, g).value] else u
    ensures Considered(u', b, n + 1)
  {
    ConsiderFieldNext(u, u', b, g, n, Nickname);
    ConsiderFieldNext(u, u', b, g, n, AgeRange);
    ConsiderFieldNext(u, u', b, g, n, Email);
    ConsiderFieldNext(u, u', b, g, n, Name);
    ConsiderFieldNext(u, u', b, g, n, Gender);
  }

  lemma ConsiderFieldNext(u: map<Field, string>, u': map<Field, string>, b: Value, g: Field, n: nat, f: Field)
    requires Position(g) == n && ConsideredField(u, b, n, f)
    requires u' == if FieldUpdate(b, g).Some? then u[g := FieldUpdate(b, g).value] else u
    ensures ConsideredField(u', b, n + 1, f)
  {
  }

  /** Once all five fields have been considered, the update set is
      complete. */
  lemma ConsideredAll(u: map<Field, string>, body: Value)
    requires Considered(u, BodyObject(body), 5)
    ensures u == UpdatesFor(body)
  {
    forall f
      ensures f in u <==> f in UpdatesFor(body)
      ensures f in u ==> u[f] == UpdatesFor(body)[f]
    {
      ConsideredAt(u, BodyObject(body), 5, f);
      UpdatesExact(body, f);
    }
  }

  /** `FieldUpdate` field by field, in the handler's terms. */
  lemma FieldUpdateCases(b: Value)
    ensures FieldUpdate(b, Nickname) == TrimmedText(Get(b, "nickname"))
    ensures FieldUpdate(b, AgeRange) == if Get(b, "ageRange").Str? then Some(Trim(Get(b, "ageRange").s)) else None
    ensures FieldUpdate(b, Email) ==
              if TrimmedText(Get(b, "email")).Some? then Some(ToLower(TrimmedText(Get(b, "email")).value)) else None
    ensures FieldUpdate(b, Name) == TrimmedText(Get(b, "name"))
    ensures FieldUpdate(b, Gender) ==
              if Get(b, "gender") == Str("male") || Get(b, "gender") == Str("female") then Some(Get(b, "gender").s) else None
  {
  }

  /** `updates` built field by field, in the handler's order. */
  method BuildUpdates(body: Value) returns (updates: map<Field, string>)
    ensures updates == UpdatesFor(body)
  {
    var b := BodyObject(body);
    FieldUpdateCases(b);
    updates := map[];
    ghost var before := updates;
    var nickname := TrimmedText(Get(b, "nickname"));
    if nickname.Some? {
      updates := updates[Nickname := nickname.value];
    }
    ConsiderNext(before, updates, b, Nickname, 0);
    before := updates;
    var ageRange := Get(b, "ageRange");
    if ageRange.Str? {
      updates := updates[AgeRange := Trim(ageRange.s)];
    }
    ConsiderNext(before, updates, b, AgeRange, 1);
    before := updates;
    var email := TrimmedText(Get(b, "email"));
    if email.Some? {
      updates := updates[Email := ToLower(email.value)];
    }
    ConsiderNext(before, updates, b, Email, 2);
    before := updates;
    var name := TrimmedText(Get(b, "name"));
    if name.Some? {
      updates := updates[Name := name.value];
    }
    ConsiderNext(before, updates, b, Name, 3);
    before := updates;
    var gender := Get(b, "gender");
    if gender == Str("male") || gender == Str("female") {
      updates := updates[Gender := gender.s];
    }
    ConsiderNext(before, updates, b, Gender, 4);
    ConsideredAll(updates, body);
  }

  const NothingToChange := "변경할 값이 없습니다."

  /** The validated part of `/api/change-info`: a 400 for an empty update
      set, otherwise the update set to apply. */
  datatype ChangeOutcome = Rejected(response: Response) | Apply(updates: map<Field, string>)

  method ChangeInfo(body: Value) returns (r: ChangeOutcome)
    ensures r.Rejected? <==> UpdatesFor(body) == map[]
    ensures r.Rejected? ==> r.response == Response(400, Obj(map["message" := Str(NothingToChange)]))
    ensures r.Apply? ==> r.updates == UpdatesFor(body)
  {
    var updates := BuildUpdates(body);
    if |updates| == 0 {
      return Rejected(Response(400, Obj(map["message" := Str(NothingToChange)])));
    }
    r := Apply(updates);
  }

  // ---------------------------------------------------------------------
  // E-mail verification codes

  /** What `emailCodes[email]` reads on the plain object `{}`: the own entry
      under `String(email)`, else an inherited `Object.prototype` member,
      else `undefined`. */
  datatype CodeSlot = OwnCode(code: string) | InheritedMember | NoCode

  function StoredCode(codes: map<string, string>, email: Value): CodeSlot
  {
    var key := ToJsString(email);
    if key in codes then OwnCode(codes[key])
    else if key in ObjectPrototypeMembers then InheritedMember
    else NoCode
  }

  /** `checkEmailCode` as written: strict equality with whatever is read. An
      inherited member is a function or `Object.prototype`, which no value of
      a JSON body is identical to. */
  predicate CheckEmailCodeAsWritten(codes: map<string, string>, email: Value, code: Value)
  {
    match StoredCode(codes, email)
    case OwnCode(c) => code == Str(c)
    case InheritedMember => false
    case NoCode => code == Undefined
  }

  /** A verification request that carries no code passes for every ordinary
      address that has no code stored (never sent, or already expired). */
  lemma MissingCodeAccepted(codes: map<string, string>, email: Value)
    requires ToJsString(email) !in codes && ToJsString(email) !in ObjectPrototypeMembers
    ensures CheckEmailCodeAsWritten(codes, email, Undefined)
  {
  }

  /** An address spelled like an inherited member, with no code stored,
      is rejected by the check as written whatever code is given. */
  lemma InheritedAddressRejected(codes: map<string, string>, email: Value, code: Value)
    requires ToJsString(email) !in codes && ToJsString(email) in ObjectPrototypeMembers
    ensures !CheckEmailCodeAsWritten(codes, email, code)
  {
  }

  /** `emailCodes[email] = code` on the plain object: assigning a string to
      `__proto__` sets no entry, every other key gets an own entry. */
  function SavedCodes(codes: map<string, string>, email: Value, code: string): map<string, string>
  {
    if ToJsString(email) == "__proto__" then codes else codes[ToJsString(email) := code]
  }

  /** The intended check: a code was sent to this address and the given
      code is that code. */
  predicate CodeMatches(codes: map<string, string>, email: Value, code: Value)
  {
    ToJsString(email) in codes && code == Str(codes[ToJsString(email)])
  }

  /**
   * The intended check accepts only a sent code: nothing is accepted for an
   * address without a stored code, and wherever a code is stored it agrees
   * with the check as written.
   */
  lemma CodeMatchesSpec(codes: map<string, string>, email: Value, code: Value)
    ensures CodeMatches(codes, email, code) ==> code.Str? && ToJsString(email) in codes
    ensures ToJsString(email) !in codes ==> !CodeMatches(codes, email, code)
    ensures ToJsString(email) in codes ==>
              (CodeMatches(codes, email, code) <==> CheckEmailCodeAsWritten(codes, email, code))
    ensures CodeMatches(codes, email, code) ==> CheckEmailCodeAsWritten(codes, email, code)
  {
  }

  /** After saving a code for an address, exactly that code is accepted for
      it, any earlier code is not, and other addresses are unaffected; saving
      under `__proto__` stores nothing. */
  lemma SaveThenCheck(codes: map<string, string>, email: Value, code: string, other: Value, given: Value)
    ensures ToJsString(email) != "__proto__" ==>
              (CodeMatches(SavedCodes(codes, email, code), email, given) <==> given == Str(code))
    ensures ToJsString(email) == "__proto__" ==>
              SavedCodes(codes, email, code) == codes
    ensures ToJsString(other) != ToJsString(email) ==>
              (CodeMatches(SavedCodes(codes, email, code), other, given) <==> CodeMatches(codes, other, given))
  {
  }

  /** The codes sent and not yet verified, keyed by address. */
  class EmailCodeStore {
    var codes: map<string, string>

    constructor ()
      ensures codes == map[]
    {
      codes := map[];
    }

    /** `saveEmailCode`: the new code replaces any earlier one, except under
        `__proto__`, where the assignment stores nothing. */
    method Save(email: Value, code: string)
      modifies this
      ensures codes == SavedCodes(old(codes), email, code)
      ensures ToJsString(email) != "__proto__" ==> codes[ToJsString(email)] == code
      ensures "__proto__" in codes <==> "__proto__" in old(codes)
    {
      var key := ToJsString(email);
      if key != "__proto__" {
        codes := codes[key := code];
      }
    }

    /** `checkEmailCode`, with the missing-code case closed. */
    method Check(email: Value, code: Value) returns (ok: bool)
      ensures ok <==> CodeMatches(codes, email, code)
      ensures ok ==> code.Str?
    {
      var key := ToJsString(email);
      ok := key in codes && code == Str(codes[key]);
    }

    /** `/api/verify-code` up to the token it signs: 400 unless the code
        matches. */
    method VerifyCode(email: Value, code: Value) returns (status: nat)
      ensures status == 200 <==> CodeMatches(codes, email, code)
      ensures status == 200 || status == 400
    {
      var isValid := Check(email, code);
      if !isValid {
        return 400;
      }
      status := 200;
    }
  }
}
