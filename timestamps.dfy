/** Timestamp handling. Calendar conversion (epoch milliseconds to an ISO
    string) is not modelled: callers pass `isoOf`, the behaviour of
    `Date.prototype.toISOString`. What is modelled is the fixed UTC-3 shift on
    epoch milliseconds and the string post-processing the backend applies to
    the ISO text. */
module Timestamps {
  import opened Common

  /** `-3 * 60 * 60 * 1000`: the Brasilia offset in milliseconds. */
  const BrasiliaOffsetMs: int := -3 * 60 * 60 * 1000

  /** `new Date(ms + offset)`: the instant three hours earlier. */
  function ShiftToBrasilia(ms: int): (r: int)
    ensures r == ms - 10_800_000
  {
    ms + BrasiliaOffsetMs
  }

  /** The shift keeps order and distances between instants. */
  lemma ShiftPreservesOrder(a: int, b: int)
    ensures a <= b <==> ShiftToBrasilia(a) <= ShiftToBrasilia(b)
    ensures ShiftToBrasilia(b) - ShiftToBrasilia(a) == b - a
  {
  }

  predicate IsDigit(c: char)
  {
    '0' <= c <= '9'
  }

  /** Positions of the non-digit characters of the two formats. */
  const IsoSeparators: set<int> := {4, 7, 10, 13, 16, 19, 23}
  const StampSeparators: set<int> := {4, 7, 10, 13, 16}

  /** The 24-character `YYYY-MM-DDTHH:MM:SS.sssZ` text that `toISOString`
      produces for years 0..9999. */
  predicate CanonicalIso(s: string)
  {
    && |s| == 24
    && s[4] == '-' && s[7] == '-' && s[10] == 'T' && s[13] == ':' && s[16] == ':'
    && s[19] == '.' && s[23] == 'Z'
    && forall i :: 0 <= i < 24 && i !in IsoSeparators ==> IsDigit(s[i])
  }

  /** The 19-character `YYYY-MM-DD HH:MM:SS` text the store keeps. */
  predicate StoredStamp(s: string)
  {
    && |s| == 19
    && s[4] == '-' && s[7] == '-' && s[10] == ' ' && s[13] == ':' && s[16] == ':'
    && forall i :: 0 <= i < 19 && i !in StampSeparators ==> IsDigit(s[i])
  }

  /** `DATE(...)` on a stored stamp: its first ten characters. */
  function DateOf(ts: string): (d: string)
    ensures |ts| >= 10 ==> |d| == 10 && d <= ts
    ensures |ts| < 10 ==> d == ts
  {
    Prefix(ts, 10)
  }

  /** `iso.replace('T', ' ').substring(0, 19)`: the stamp `salvarLeitura` stores. */
  function StampFromIso(iso: string): (r: string)
    ensures |r| <= 19
  {
    Prefix(ReplaceFirst(iso, 'T', " "), 19)
  }

  predicate IsLineTerminator(c: char)
  {
    c == '\n' || c == '\r' || c == '\U{2028}' || c == '\U{2029}'
  }

  /** Index of the first line terminator in `s`, or `|s|`. */
  function LineEnd(s: string): (i: nat)
    ensures i <= |s|
    ensures forall k :: 0 <= k < i ==> !IsLineTerminator(s[k])
  {
    if |s| == 0 || IsLineTerminator(s[0]) then 0 else 1 + LineEnd(s[1..])
  }

  /** `s.replace(/\..+/, '')`: removes the leftmost match of a dot followed by
      one or more characters up to the end of the line. */
  function RemoveDotTail(s: string): (r: string)
    ensures |r| <= |s|
    decreases |s|
  {
    var p := IndexOf(s, '.');
    if p + 1 >= |s| then s
    else if IsLineTerminator(s[p + 1]) then s[..p + 1] + RemoveDotTail(s[p + 1..])
    else s[..p] + s[p + 1 + LineEnd(s[p + 1..])..]
  }

  /** The seed script's stamp: `iso.replace('T', ' ').replace(/\..+/, '')`. */
  function SeedStamp(iso: string): (r: string)
  {
    RemoveDotTail(ReplaceFirst(iso, 'T', " "))
  }

  /** `iso.replace('Z', '')`: the value the relay controller hands to the store
      (which ignores it). */
  function IsoWithoutZ(iso: string): (r: string)
  {
    ReplaceFirst(iso, 'Z', "")
  }

  /** `iso.split('T')[0]`: the dashboard's notion of today's date. */
  function DatePart(iso: string): (d: string)
  {
    FirstField(iso, 'T')
  }

  /** `strftime('%Y-%m-%d %H:%M:%S', ts)` for the 19-character stamps this
      system writes, with a space or a `T` between date and time. Other
      texts are mapped to NULL here; SQLite's own parsing of shorter forms,
      fractions, out-of-range fields and day overflow is not modelled, so
      the result agrees with SQLite on valid calendar stamps only. */
  function FormattedTime(ts: string): Option<string>
  {
    if |ts| == 19 && (ts[10] == ' ' || ts[10] == 'T') && StoredStamp(ts[..10] + " " + ts[11..])
    then Some(ts[..10] + " " + ts[11..])
    else None
  }

  /** A formatted time is a well-formed `YYYY-MM-DD HH:MM:SS` text on the
      same date; a stamp already in that form is returned unchanged, and one
      with a `T` separator gets a space instead. */
  lemma FormattedTimeShape(ts: string)
    ensures FormattedTime(ts).Some? ==>
      StoredStamp(FormattedTime(ts).value) && DateOf(FormattedTime(ts).value) == DateOf(ts)
    ensures StoredStamp(ts) ==> FormattedTime(ts) == Some(ts)
    ensures |ts| == 19 && ts[10] == 'T' && StoredStamp(ts[..10] + " " + ts[11..]) ==>
      FormattedTime(ts) == Some(ts[..10] + " " + ts[11..])
  {
    if |ts| == 19 {
      var f := ts[..10] + " " + ts[11..];
      assert f[..10] == ts[..10];
      assert ts[10] == ' ' ==> f == ts;
    }
  }

  lemma IndexOfCanonicalT(iso: string)
    requires CanonicalIso(iso)
    ensures IndexOf(iso, 'T') == 10
  {
    IndexOfFirst(iso, 'T');
    assert forall k :: 0 <= k < 10 ==> iso[k] != 'T' by {
      forall k | 0 <= k < 10 ensures iso[k] != 'T' {
        if k != 4 && k != 7 { assert IsDigit(iso[k]); }
      }
    }
  }

  /** The common shape after `replace('T', ' ')` on a canonical ISO text. */
  lemma ReplaceTOnCanonical(iso: string)
    requires CanonicalIso(iso)
    ensures ReplaceFirst(iso, 'T', " ") == iso[..10] + " " + iso[11..]
  {
    IndexOfCanonicalT(iso);
  }

  /** For a canonical ISO text the stored stamp is `YYYY-MM-DD HH:MM:SS`:
      19 characters, a space at index 10, the date and the clock time of the
      input unchanged. */
  lemma {:induction false} StampFromCanonical(iso: string)
    requires CanonicalIso(iso)
    ensures StampFromIso(iso) == iso[..10] + " " + iso[11..19]
    ensures StoredStamp(StampFromIso(iso))
    ensures |StampFromIso(iso)| == 19 && StampFromIso(iso)[10] == ' '
    ensures DateOf(StampFromIso(iso)) == DateOf(iso)
  {
    ReplaceTOnCanonical(iso);
    var t := iso[..10] + " " + iso[11..];
    assert t[..19] == iso[..10] + " " + iso[11..19];
    var r := StampFromIso(iso);
    assert r == iso[..10] + " " + iso[11..19];
    forall i | 0 <= i < 19 && i != 4 && i != 7 && i != 10 && i != 13 && i != 16
      ensures IsDigit(r[i])
    {
      if i < 10 { assert r[i] == iso[i]; } else { assert r[i] == iso[i]; }
    }
    assert r[..10] == iso[..10];
  }

  /** The seed script's formatter and `salvarLeitura`'s formatter agree on
      every canonical ISO text. */
  lemma {:induction false} SeedStampAgrees(iso: string)
    requires CanonicalIso(iso)
    ensures SeedStamp(iso) == StampFromIso(iso)
  {
    ReplaceTOnCanonical(iso);
    StampFromCanonical(iso);
    var t := iso[..10] + " " + iso[11..];
    assert |t| == 24;
    assert forall k :: 0 <= k < 19 ==> t[k] != '.' by {
      forall k | 0 <= k < 19 ensures t[k] != '.' {
        if k < 10 { assert t[k] == iso[k]; if k != 4 && k != 7 { assert IsDigit(iso[k]); } }
        else if k > 10 {
          assert t[k] == iso[k];
          if k != 13 && k != 16 { assert IsDigit(iso[k]); }
        }
      }
    }
    assert t[19] == '.';
    IndexOfFirst(t, '.');
    assert IndexOf(t, '.') == 19;
    assert t[20] == iso[20] && IsDigit(iso[20]);
    var tail := t[20..];
    assert forall k :: 0 <= k < |tail| ==> !IsLineTerminator(tail[k]) by {
      forall k | 0 <= k < |tail| ensures !IsLineTerminator(tail[k]) {
        assert tail[k] == iso[20 + k];
        if 20 + k != 23 { assert IsDigit(iso[20 + k]); }
      }
    }
    LineEndNone(tail);
    assert t[..19] + t[24..] == t[..19];
  }

  lemma {:induction false} LineEndNone(s: string)
    requires forall k :: 0 <= k < |s| ==> !IsLineTerminator(s[k])
    ensures LineEnd(s) == |s|
    decreases |s|
  {
    if |s| > 0 { LineEndNone(s[1..]); }
  }

  /** The relay controller's ISO text differs from the canonical one only by
      the dropped `Z`. */
  lemma IsoWithoutZOnCanonical(iso: string)
    requires CanonicalIso(iso)
    ensures IsoWithoutZ(iso) == iso[..23] && |IsoWithoutZ(iso)| == 23
  {
    assert forall k :: 0 <= k < 23 ==> iso[k] != 'Z' by {
      forall k | 0 <= k < 23 ensures iso[k] != 'Z' {
        if k != 4 && k != 7 && k != 10 && k != 13 && k != 16 && k != 19 { assert IsDigit(iso[k]); }
      }
    }
    IndexOfFirst(iso, 'Z');
    assert IndexOf(iso, 'Z') == 23;
  }

  /** The dashboard's "today" is the date part of the ISO text. */
  lemma DatePartOfCanonical(iso: string)
    requires CanonicalIso(iso)
    ensures DatePart(iso) == iso[..10] == DateOf(StampFromIso(iso))
  {
    IndexOfCanonicalT(iso);
    StampFromCanonical(iso);
  }
}
