/** Walk-record validation, as in `HDT_CORE_INFRASTRUCTURE/validation.py`. A record is
    checked and rebuilt: a timezone-free ISO date or datetime, non-negative integer steps,
    optional numeric fields, an optional HH:MM:SS duration, then every other field copied as
    it was. A list is cleaned record by record, either failing on the first bad record
    (strict) or dropping it. */
module Validation {
  import opened Wrappers
  import opened Text
  import opened JsonValues

  /** Why a value is refused; each stands for one `ValidationError` message. */
  datatype Reason =
    | NotString        // "date must be a string"
    | TimezoneOffset   // "timezone offsets not allowed: ..."
    | BadDate          // "invalid ISO date/datetime: ..."
    | NotInteger       // "value not an integer: ..."
    | BelowMinimum     // "value below minimum ...: ..."
    | NotFloat         // "not a float: ..."
    | BadDuration      // "duration must be HH:MM:SS, got ..."
    | NotObject        // "record must be an object"
    | MissingDate      // "missing required field: date"

  predicate DigitsAt(s: string, lo: int, hi: int)
    requires 0 <= lo <= hi <= |s|
  {
    forall i :: lo <= i < hi ==> IsDigit(s[i])
  }

  function Num(s: string, lo: int, hi: int): nat
    requires 0 <= lo <= hi <= |s| && DigitsAt(s, lo, hi)
  {
    DigitsValue(s[lo..hi])
  }

  predicate Leap(y: int) {
    y % 4 == 0 && (y % 100 != 0 || y % 400 == 0)
  }

  function DaysIn(y: int, m: int): int {
    if m == 2 then (if Leap(y) then 29 else 28)
    else if m == 4 || m == 6 || m == 9 || m == 11 then 30
    else 31
  }

  /** A calendar date written YYYY-MM-DD. */
  predicate IsIsoDate(s: string) {
    |s| == 10 && DigitsAt(s, 0, 4) && s[4] == '-' && DigitsAt(s, 5, 7) && s[7] == '-' && DigitsAt(s, 8, 10) &&
    1 <= Num(s, 0, 4) && 1 <= Num(s, 5, 7) <= 12 && 1 <= Num(s, 8, 10) <= DaysIn(Num(s, 0, 4), Num(s, 5, 7))
  }

  /** The shape dd:dd:dd. */
  predicate ClockShape(t: string) {
    |t| == 8 && DigitsAt(t, 0, 2) && t[2] == ':' && DigitsAt(t, 3, 5) && t[5] == ':' && DigitsAt(t, 6, 8)
  }

  /** A time of day written HH:MM:SS. */
  predicate IsClock(t: string) {
    ClockShape(t) && Num(t, 0, 2) < 24 && Num(t, 3, 5) < 60 && Num(t, 6, 8) < 60
  }

  /** A date and a time separated by "T" or a space. */
  predicate IsIsoDatetime(s: string) {
    |s| == 19 && IsIsoDate(s[..10]) && (s[10] == 'T' || s[10] == ' ') && IsClock(s[11..])
  }

  /** `s[n:]`, empty when `s` is shorter. */
  function Tail(s: string, n: nat): string {
    if n <= |s| then s[n..] else []
  }

  /** The offset guard: a trailing "Z", a "+" from position 10 on, or a "-" from 11 on. */
  predicate HasOffset(raw: string) {
    EndsWith(raw, "Z") || '+' in Tail(raw, 10) || '-' in Tail(raw, 11)
  }

  /** The two forms a normalised date takes. */
  predicate Normalised(x: string) {
    IsIsoDate(x) || (IsIsoDatetime(x) && x[10] == ' ')
  }

  /** `_normalize_iso_datetime(s)` */
  function NormalizeIsoDatetime(s: Json): (r: Result<string, Reason>)
    ensures !s.JStr? ==> r == Failure(NotString)
    ensures s.JStr? && HasOffset(Strip(s.s)) ==> r == Failure(TimezoneOffset)
    ensures r.Success? ==> Normalised(r.value)
  {
    if !s.JStr? then Failure(NotString)
    else
      var raw := Strip(s.s);
      if HasOffset(raw) then Failure(TimezoneOffset)
      else if IsIsoDatetime(raw) then
        var x := raw[..10] + " " + raw[11..];
        assert x[..10] == raw[..10] && x[11..] == raw[11..];
        Success(x)
      else if IsIsoDate(raw) then Success(raw)
      else Failure(BadDate)
  }

  lemma DigitsNotSpace(s: string)
    requires s != [] && (IsDigit(s[0]) || s[0] == ':') && (IsDigit(s[|s| - 1]) || s[|s| - 1] == ':')
    ensures Strip(s) == s
  {
    NoSpaceStrip(s);
  }

  /** A date alone comes back as it is. */
  lemma NormalizeDate(d: string)
    requires IsIsoDate(d)
    ensures NormalizeIsoDatetime(JStr(d)) == Success(d)
  {
    DigitsNotSpace(d);
    assert !EndsWith(d, "Z") by {
      assert d[9..] != "Z";
    }
  }

  /** A datetime in either form comes back with a space between date and time. */
  lemma NormalizeDatetime(d: string, sep: char, t: string)
    requires IsIsoDate(d) && IsClock(t) && (sep == 'T' || sep == ' ')
    ensures NormalizeIsoDatetime(JStr(d + [sep] + t)) == Success(d + " " + t)
  {
    var s := d + [sep] + t;
    assert s[..10] == d && s[11..] == t;
    DigitsNotSpace(s);
    assert !EndsWith(s, "Z") by {
      assert s[18..] != "Z";
    }
    assert Tail(s, 10) == [sep] + t;
    assert '+' !in Tail(s, 10) && '-' !in Tail(s, 11);
  }

  /** Normalising is idempotent: the normalised text normalises to itself. */
  lemma NormalizeIdempotent(s: Json)
    requires NormalizeIsoDatetime(s).Success?
    ensures var x := NormalizeIsoDatetime(s).value; NormalizeIsoDatetime(JStr(x)) == Success(x)
  {
    var x := NormalizeIsoDatetime(s).value;
    if IsIsoDate(x) {
      NormalizeDate(x);
    } else {
      assert x == x[..10] + [' '] + x[11..];
      NormalizeDatetime(x[..10], ' ', x[11..]);
    }
  }

  /** `_coerce_int(value, min_value=...)` */
  function CoerceIntMin(v: Json, minValue: Option<int>): (r: Result<int, Reason>)
    ensures r.Success? <==> CoerceInt(v).Some? && (minValue.None? || CoerceInt(v).value >= minValue.value)
    ensures r.Success? ==> r.value == CoerceInt(v).value
    ensures CoerceInt(v).None? ==> r == Failure(NotInteger)
    ensures CoerceInt(v).Some? && minValue.Some? && CoerceInt(v).value < minValue.value ==> r == Failure(BelowMinimum)
  {
    var iv := CoerceInt(v);
    if iv.None? then Failure(NotInteger)
    else if minValue.Some? && iv.value < minValue.value then Failure(BelowMinimum)
    else Success(iv.value)
  }

  /** `_coerce_float_or_none(v)`; the value itself stands for the float it converts to. */
  function FloatOrNone(v: Json): (r: Result<Json, Reason>)
    ensures v.JNull? ==> r == Success(JNull)
    ensures r.Success? ==> r.value == v
    ensures v.JList? || v.JObj? ==> r == Failure(NotFloat)
  {
    match v
    case JNull => Success(JNull)
    case JBool(_) => Success(v)
    case JInt(_) => Success(v)
    case JStr(s) => if FloatText(Strip(s)) then Success(v) else Failure(NotFloat)
    case _ => Failure(NotFloat)
  }

  /** `^\d{2}:\d{2}:\d{2}$`; "$" also matches before one final newline. */
  predicate DurationText(s: string) {
    ClockShape(s) || (|s| == 9 && s[8] == '\n' && ClockShape(s[..8]))
  }

  /** `_coerce_duration_or_none(v)` */
  function DurationOrNone(v: Json): (r: Result<Json, Reason>)
    ensures v.JNull? ==> r == Success(JNull)
    ensures !v.JNull? && r.Success? ==> r.value == JStr(PyStr(v)) && DurationText(PyStr(v))
    ensures !v.JNull? && !DurationText(PyStr(v)) ==> r == Failure(BadDuration)
  {
    if v.JNull? then Success(JNull)
    else if DurationText(PyStr(v)) then Success(JStr(PyStr(v)))
    else Failure(BadDuration)
  }

  /** The five fields the sanitiser writes first, in its order. */
  function CoreFields(date: string, steps: int, dist: Json, kcal: Json, dur: Json): Fields {
    [("date", JStr(date)), ("steps", JInt(steps)), ("distance_meters", dist), ("kcalories", kcal), ("duration", dur)]
  }

  /** The loop over `rec.items()`: each key not yet in `out` added with the record's value. */
  function Extras(out: Fields, fs: Fields, src: Fields): (r: Fields)
    ensures out <= r
    decreases |fs|
  {
    if fs == [] then out
    else
      var o := Extras(out, fs[..|fs| - 1], src);
      var k := fs[|fs| - 1].0;
      if LastIndex(o, k) >= 0 || Lookup(src, k).None? then o else o + [(k, Lookup(src, k).value)]
  }

  /** The copy never touches a key that is already written. */
  lemma {:induction false} ExtrasKeepOut(out: Fields, fs: Fields, src: Fields, k: string)
    requires Lookup(out, k).Some?
    ensures Lookup(Extras(out, fs, src), k) == Lookup(out, k)
    decreases |fs|
  {
    if fs != [] {
      var o := Extras(out, fs[..|fs| - 1], src);
      ExtrasKeepOut(out, fs[..|fs| - 1], src, k);
      var k2 := fs[|fs| - 1].0;
      if !(LastIndex(o, k2) >= 0 || Lookup(src, k2).None?) {
        AppendBinding(o, (k2, Lookup(src, k2).value));
      }
    }
  }

  /** A key not already written ends with the record's value when the record has it. */
  lemma {:induction false} ExtrasCopy(out: Fields, fs: Fields, src: Fields, k: string)
    requires Lookup(out, k).None?
    requires LastIndex(fs, k) >= 0 ==> Lookup(src, k).Some?
    ensures Lookup(Extras(out, fs, src), k) == if LastIndex(fs, k) >= 0 then Lookup(src, k) else None
    decreases |fs|
  {
    if fs != [] {
      var init := fs[..|fs| - 1];
      var o := Extras(out, init, src);
      var k2 := fs[|fs| - 1].0;
      assert LastIndex(fs, k) == if k2 == k then |fs| - 1 else LastIndex(init, k);
      ExtrasCopy(out, init, src, k);
      if !(LastIndex(o, k2) >= 0 || Lookup(src, k2).None?) {
        AppendBinding(o, (k2, Lookup(src, k2).value));
      }
    }
  }

  /** `sanitize_walk_record(rec)` */
  function Sanitized(rec: Json): (r: Result<Json, Reason>)
    ensures !rec.JObj? ==> r == Failure(NotObject)
    ensures rec.JObj? && !HasKey(rec, "date") ==> r == Failure(MissingDate)
    ensures r.Success? <==>
      (rec.JObj? && HasKey(rec, "date") &&
       NormalizeIsoDatetime(Get(rec, "date").value).Success? &&
       CoerceIntMin(GetOr(rec, "steps", JInt(0)), Some(0)).Success? &&
       FloatOrNone(GetOr(rec, "distance_meters", JNull)).Success? &&
       FloatOrNone(GetOr(rec, "kcalories", JNull)).Success? &&
       DurationOrNone(GetOr(rec, "duration", JNull)).Success?)
    ensures (rec.JObj? && HasKey(rec, "date") && NormalizeIsoDatetime(Get(rec, "date").value).Success? &&
             CoerceInt(GetOr(rec, "steps", JInt(0))).Some? && CoerceInt(GetOr(rec, "steps", JInt(0))).value < 0) ==>
      r == Failure(BelowMinimum)
    ensures r.Success? ==> r.value.JObj?
  {
    if !rec.JObj? then Failure(NotObject)
    else if !HasKey(rec, "date") then Failure(MissingDate)
    else
      var date := NormalizeIsoDatetime(Get(rec, "date").value);
      var steps := CoerceIntMin(GetOr(rec, "steps", JInt(0)), Some(0));
      var dist := FloatOrNone(GetOr(rec, "distance_meters", JNull));
      var kcal := FloatOrNone(GetOr(rec, "kcalories", JNull));
      var dur := DurationOrNone(GetOr(rec, "duration", JNull));
      if date.Failure? then Failure(date.error)
      else if steps.Failure? then Failure(steps.error)
      else if dist.Failure? then Failure(dist.error)
      else if kcal.Failure? then Failure(kcal.error)
      else if dur.Failure? then Failure(dur.error)
      else
        var core := CoreFields(date.value, steps.value, dist.value, kcal.value, dur.value);
        Success(JObj(Extras(core, rec.fields, rec.fields)))
  }

  lemma CoreLookups(date: string, steps: int, dist: Json, kcal: Json, dur: Json)
    ensures var core := CoreFields(date, steps, dist, kcal, dur);
      Lookup(core, "date") == Some(JStr(date)) && Lookup(core, "steps") == Some(JInt(steps)) &&
      Lookup(core, "distance_meters") == Some(dist) && Lookup(core, "kcalories") == Some(kcal) &&
      Lookup(core, "duration") == Some(dur) &&
      forall k :: k !in {"date", "steps", "distance_meters", "kcalories", "duration"} ==> Lookup(core, k).None?
  {
    var core := CoreFields(date, steps, dist, kcal, dur);
    LookupAt(core, 0);
    LookupAt(core, 1);
    LookupAt(core, 2);
    LookupAt(core, 3);
    LookupAt(core, 4);
    forall k | k !in {"date", "steps", "distance_meters", "kcalories", "duration"} ensures Lookup(core, k).None? {
      LookupAbsent(core, k);
    }
  }

  /** A clean record has the normalised date, the record's steps as an integer of at least
      zero (0 when absent), the converted distance and energy, and the duration as None or the
      HH:MM:SS text of the value; every other field of the record is copied unchanged, and no
      field is invented. */
  lemma SanitizedFields(rec: Json)
    requires Sanitized(rec).Success?
    ensures var o := Sanitized(rec).value.fields;
      Lookup(o, "date") == Some(JStr(NormalizeIsoDatetime(Get(rec, "date").value).value)) &&
      Lookup(o, "steps") == Some(JInt(CoerceInt(GetOr(rec, "steps", JInt(0))).value)) &&
      CoerceInt(GetOr(rec, "steps", JInt(0))).value >= 0 &&
      Lookup(o, "distance_meters") == Some(FloatOrNone(GetOr(rec, "distance_meters", JNull)).value) &&
      Lookup(o, "kcalories") == Some(FloatOrNone(GetOr(rec, "kcalories", JNull)).value) &&
      Lookup(o, "duration") == Some(DurationOrNone(GetOr(rec, "duration", JNull)).value) &&
      (Lookup(o, "duration").value.JNull? || (Lookup(o, "duration").value.JStr? && DurationText(Lookup(o, "duration").value.s)))
    ensures forall k :: k !in {"date", "steps", "distance_meters", "kcalories", "duration"} ==>
      Lookup(Sanitized(rec).value.fields, k) == Lookup(rec.fields, k)
  {
    var date := NormalizeIsoDatetime(Get(rec, "date").value);
    var steps := CoerceIntMin(GetOr(rec, "steps", JInt(0)), Some(0));
    var dist := FloatOrNone(GetOr(rec, "distance_meters", JNull));
    var kcal := FloatOrNone(GetOr(rec, "kcalories", JNull));
    var dur := DurationOrNone(GetOr(rec, "duration", JNull));
    var core := CoreFields(date.value, steps.value, dist.value, kcal.value, dur.value);
    CoreLookups(date.value, steps.value, dist.value, kcal.value, dur.value);
    ExtrasKeepOut(core, rec.fields, rec.fields, "date");
    ExtrasKeepOut(core, rec.fields, rec.fields, "steps");
    ExtrasKeepOut(core, rec.fields, rec.fields, "distance_meters");
    ExtrasKeepOut(core, rec.fields, rec.fields, "kcalories");
    ExtrasKeepOut(core, rec.fields, rec.fields, "duration");
    forall k | k !in {"date", "steps", "distance_meters", "kcalories", "duration"}
      ensures Lookup(Extras(core, rec.fields, rec.fields), k) == Lookup(rec.fields, k)
    {
      ExtrasCopy(core, rec.fields, rec.fields, k);
    }
  }

  /** `sanitize_walk_record`, the extra fields copied by its loop. */
  method SanitizeWalkRecord(rec: Json) returns (r: Result<Json, Reason>)
    ensures r == Sanitized(rec)
  {
    if !rec.JObj? {
      return Failure(NotObject);
    }
    if !HasKey(rec, "date") {
      return Failure(MissingDate);
    }
    var date := NormalizeIsoDatetime(Get(rec, "date").value);
    var steps := CoerceIntMin(GetOr(rec, "steps", JInt(0)), Some(0));
    var dist := FloatOrNone(GetOr(rec, "distance_meters", JNull));
    var kcal := FloatOrNone(GetOr(rec, "kcalories", JNull));
    var dur := DurationOrNone(GetOr(rec, "duration", JNull));
    if date.Failure? || steps.Failure? || dist.Failure? || kcal.Failure? || dur.Failure? {
      return Sanitized(rec);
    }
    var core := CoreFields(date.value, steps.value, dist.value, kcal.value, dur.value);
    var out := CopyExtras(core, rec.fields);
    r := Success(JObj(out));
  }

  /** `for k, v in rec.items(): if k not in out: out[k] = v` */
  method CopyExtras(core: Fields, fs: Fields) returns (out: Fields)
    ensures out == Extras(core, fs, fs)
  {
    out := core;
    for i := 0 to |fs|
      invariant out == Extras(core, fs[..i], fs)
    {
      assert fs[..i + 1][..i] == fs[..i];
      var k := fs[i].0;
      if LastIndex(out, k) < 0 && Lookup(fs, k).Some? {
        out := out + [(k, Lookup(fs, k).value)];
      }
    }
    assert fs[..|fs|] == fs;
  }

  /** The outcome of checking each record. */
  function Outcomes(rs: seq<Json>): (os: seq<Result<Json, Reason>>)
    ensures |os| == |rs|
    ensures forall i :: 0 <= i < |rs| ==> os[i] == Sanitized(rs[i])
  {
    seq(|rs|, i requires 0 <= i < |rs| => Sanitized(rs[i]))
  }

  /** `sanitize_walk_records(records, strict)` over the outcomes seen so far: the clean
      records, or the index and reason of the first bad one when strict. */
  function CleanAll(os: seq<Result<Json, Reason>>, strict: bool): (r: Result<seq<Json>, (nat, Reason)>)
    decreases |os|
  {
    if os == [] then Success([])
    else
      var prev := CleanAll(os[..|os| - 1], strict);
      var one := os[|os| - 1];
      if prev.Failure? then prev
      else if one.Success? then Success(prev.value + [one.value])
      else if strict then Failure((|os| - 1, one.error))
      else prev
  }

  /** `sanitize_walk_records(records, strict)`; None gives []. */
  function SanitizeAll(records: Option<seq<Json>>, strict: bool): Result<seq<Json>, (nat, Reason)> {
    if records.None? then Success([]) else CleanAll(Outcomes(records.value), strict)
  }

  /** The clean records in their order: an independent statement of what the lenient mode
      keeps. */
  function Kept(os: seq<Result<Json, Reason>>): seq<Json> {
    if os == [] then []
    else (if os[0].Success? then [os[0].value] else []) + Kept(os[1..])
  }

  lemma {:induction false} KeptSnoc(os: seq<Result<Json, Reason>>, x: Result<Json, Reason>)
    ensures Kept(os + [x]) == Kept(os) + (if x.Success? then [x.value] else [])
    decreases |os|
  {
    if os != [] {
      assert (os + [x])[1..] == os[1..] + [x];
      KeptSnoc(os[1..], x);
    } else {
      assert [x][1..] == [];
    }
  }

  /** Lenient mode never fails and keeps exactly the valid records, cleaned, in order. */
  lemma {:induction false} LenientKeepsValid(os: seq<Result<Json, Reason>>)
    ensures CleanAll(os, false) == Success(Kept(os))
    decreases |os|
  {
    if os != [] {
      var init, x := os[..|os| - 1], os[|os| - 1];
      LenientKeepsValid(init);
      KeptSnoc(init, x);
      assert init + [x] == os;
      assert Kept(init) + [] == Kept(init);
    }
  }

  /** Strict mode fails at exactly the first bad record, with its reason. */
  lemma {:induction false} StrictFailsFirst(os: seq<Result<Json, Reason>>)
    ensures var r := CleanAll(os, true);
      r.Failure? ==>
        r.error.0 < |os| && os[r.error.0] == Failure(r.error.1) &&
        forall j :: 0 <= j < r.error.0 ==> os[j].Success?
    decreases |os|
  {
    if os != [] {
      var init := os[..|os| - 1];
      StrictFailsFirst(init);
      StrictKeepsAll(init);
      assert forall j :: 0 <= j < |init| ==> init[j] == os[j];
    }
  }

  /** When strict mode succeeds every record was valid and all are kept, cleaned. */
  lemma {:induction false} StrictKeepsAll(os: seq<Result<Json, Reason>>)
    ensures var r := CleanAll(os, true);
      r.Success? ==>
        r.value == Kept(os) && |r.value| == |os| && forall j :: 0 <= j < |os| ==> os[j].Success?
    decreases |os|
  {
    if os != [] {
      var init, x := os[..|os| - 1], os[|os| - 1];
      StrictKeepsAll(init);
      if CleanAll(os, true).Success? {
        KeptSnoc(init, x);
        assert init + [x] == os;
        forall j | 0 <= j < |os| ensures os[j].Success? {
          if j < |init| {
            assert init[j] == os[j];
          }
        }
      }
    }
  }

  /** `sanitize_walk_records`: the loop appends each clean record and stops at the first bad
      one when strict. */
  method SanitizeWalkRecords(records: Option<seq<Json>>, strict: bool) returns (r: Result<seq<Json>, (nat, Reason)>)
    ensures r == SanitizeAll(records, strict)
  {
    if records.None? {
      return Success([]);
    }
    var rs := records.value;
    ghost var os := Outcomes(rs);
    var cleaned := [];
    var i := 0;
    while i < |rs|
      invariant 0 <= i <= |rs|
      invariant CleanAll(os[..i], strict) == Success(cleaned)
    {
      assert os[..i + 1][..i] == os[..i];
      var one := SanitizeWalkRecord(rs[i]);
      if one.Failure? {
        if strict {
          assert CleanAll(os[..i + 1], strict) == Failure((i, one.error));
          CleanAllStays(os, i + 1, strict);
          return Failure((i, one.error));
        }
      } else {
        cleaned := cleaned + [one.value];
      }
      i := i + 1;
    }
    assert os[..i] == os;
    r := Success(cleaned);
  }

  /** Once a prefix has failed, the whole list fails the same way. */
  lemma {:induction false} CleanAllStays(os: seq<Result<Json, Reason>>, n: nat, strict: bool)
    requires n <= |os| && CleanAll(os[..n], strict).Failure?
    ensures CleanAll(os, strict) == CleanAll(os[..n], strict)
    decreases |os| - n
  {
    if n < |os| {
      assert os[..n + 1][..n] == os[..n];
      CleanAllStays(os, n + 1, strict);
    } else {
      assert os[..n] == os;
    }
  }
}
