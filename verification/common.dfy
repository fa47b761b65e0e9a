/**
 * JavaScript primitives the site's scripts rely on, stated once and shared:
 * optional values, Array.prototype.join, String.prototype.includes and trim,
 * decimal rendering of numbers, and plain objects as insertion-ordered maps
 * (Object.fromEntries, property assignment, FormData.getAll).
 */
module Common {

  datatype Option<T> = None | Some(value: T)

  datatype Result<T> = Ok(value: T) | Err(message: string)

  /**
   * A property value as the scripts see it: a string, or an array of strings
   * (the checkbox group, or a JSON array in a parsed request).
   */
  datatype JsVal = Str(text: string) | List(items: seq<string>)

  /** JavaScript truthiness: the empty string is falsy, every array is truthy. */
  predicate Truthy(v: JsVal)
  {
    v.List? || v.text != ""
  }

  /** `o.k || fallback` for a property that may be missing (None is `undefined`). */
  function Or(v: Option<JsVal>, fallback: JsVal): JsVal
  {
    if v.Some? && Truthy(v.value) then v.value else fallback
  }

  /** String(v): an array renders as its items joined with commas. */
  function ToText(v: JsVal): string
  {
    match v
    case Str(s) => s
    case List(xs) => Join(xs, ",")
  }

  // ---------------------------------------------------------------------------
  // Strings
  // ---------------------------------------------------------------------------

  /** Array.prototype.join over strings. */
  function Join(xs: seq<string>, sep: string): string
  {
    if |xs| == 0 then ""
    else if |xs| == 1 then xs[0]
    else xs[0] + sep + Join(xs[1..], sep)
  }

  /** `sub` occurs in `s` at offset i. */
  ghost predicate OccursAt(s: string, sub: string, i: int)
  {
    0 <= i && i + |sub| <= |s| && s[i..i + |sub|] == sub
  }

  /** String.prototype.includes, scanning from the left. */
  function Contains(s: string, sub: string): bool
  {
    if sub <= s then true
    else if |s| == 0 then false
    else Contains(s[1..], sub)
  }

  /** The left-to-right scan finds `sub` exactly when it occurs somewhere. */
  lemma {:induction false} ContainsIff(s: string, sub: string)
    ensures Contains(s, sub) <==> exists i :: OccursAt(s, sub, i)
    decreases |s|
  {
    if sub <= s {
      assert OccursAt(s, sub, 0);
    } else if |s| > 0 {
      ContainsIff(s[1..], sub);
      if Contains(s[1..], sub) {
        var i :| OccursAt(s[1..], sub, i);
        OccursInTail(s, sub, i);
      } else {
        forall i | OccursAt(s, sub, i) ensures false {
          if i > 0 {
            OccursInTail(s, sub, i - 1);
          }
        }
      }
    }
  }

  /** An occurrence in the tail is an occurrence one place further on. */
  lemma OccursInTail(s: string, sub: string, i: nat)
    requires |s| > 0
    ensures OccursAt(s[1..], sub, i) <==> OccursAt(s, sub, i + 1)
  {
    if i + 1 + |sub| <= |s| {
      assert s[1..][i..i + |sub|] == s[i + 1..i + 1 + |sub|];
    }
  }

  /**
   * The characters String.prototype.trim removes: WhiteSpace (TAB, VT, FF,
   * ZWNBSP and every Unicode "Zs" space separator) and LineTerminator (LF,
   * CR, LS, PS).
   */
  predicate IsJsWhitespace(c: char)
  {
    c == '\t' || c == '\n' || c == '\r' || c == ' '
    || c as int == 0x0B || c as int == 0x0C
    || c as int == 0xA0 || c as int == 0x1680
    || (0x2000 <= c as int <= 0x200A)
    || c as int == 0x2028 || c as int == 0x2029
    || c as int == 0x202F || c as int == 0x205F
    || c as int == 0x3000 || c as int == 0xFEFF
  }

  /** Every character of `s` is whitespace (the empty string included). */
  ghost predicate IsBlank(s: string)
  {
    forall i :: 0 <= i < |s| ==> IsJsWhitespace(s[i])
  }

  function TrimStart(s: string): string
  {
    if |s| > 0 && IsJsWhitespace(s[0]) then TrimStart(s[1..]) else s
  }

  function TrimEnd(s: string): string
  {
    if |s| > 0 && IsJsWhitespace(s[|s| - 1]) then TrimEnd(s[..|s| - 1]) else s
  }

  /** String.prototype.trim. */
  function Trim(s: string): string
  {
    TrimEnd(TrimStart(s))
  }

  lemma {:induction false} TrimStartEmptyIffBlank(s: string)
    ensures TrimStart(s) == "" <==> IsBlank(s)
    ensures TrimStart(s) != "" ==> !IsJsWhitespace(TrimStart(s)[0])
    decreases |s|
  {
    if |s| > 0 && IsJsWhitespace(s[0]) {
      TrimStartEmptyIffBlank(s[1..]);
      assert IsBlank(s) <==> IsBlank(s[1..]) by {
        if IsBlank(s[1..]) {
          forall i | 0 <= i < |s| ensures IsJsWhitespace(s[i]) {
            if i > 0 { assert s[i] == s[1..][i - 1]; }
          }
        }
        if IsBlank(s) {
          forall i | 0 <= i < |s| - 1 ensures IsJsWhitespace(s[1..][i]) {
            assert s[1..][i] == s[i + 1];
          }
        }
      }
    } else if |s| > 0 {
      assert !IsJsWhitespace(s[0]);
    }
  }

  lemma {:induction false} TrimEndKeepsNonBlank(s: string)
    requires |s| > 0 && !IsJsWhitespace(s[0])
    ensures TrimEnd(s) != ""
    decreases |s|
  {
    if IsJsWhitespace(s[|s| - 1]) {
      assert |s| > 1;
      TrimEndKeepsNonBlank(s[..|s| - 1]);
    }
  }

  /** A required input counts as filled exactly when it is not all whitespace. */
  lemma TrimEmptyIffBlank(s: string)
    ensures Trim(s) == "" <==> IsBlank(s)
  {
    TrimStartEmptyIffBlank(s);
    if TrimStart(s) != "" {
      TrimEndKeepsNonBlank(TrimStart(s));
    }
  }

  // ---------------------------------------------------------------------------
  // Decimal rendering of non-negative integers (template literals, HTTP status)
  // ---------------------------------------------------------------------------

  function DigitChar(d: nat): char
    requires d < 10
  {
    "0123456789"[d]
  }

  function Decimal(n: nat): (s: string)
    ensures |s| > 0
    ensures forall i :: 0 <= i < |s| ==> '0' <= s[i] <= '9'
  {
    if n < 10 then [DigitChar(n)] else Decimal(n / 10) + [DigitChar(n % 10)]
  }

  /** Reads decimal digits back: the inverse of Decimal. */
  function ParseDecimal(s: string): int
  {
    if |s| == 0 then 0
    else 10 * ParseDecimal(s[..|s| - 1]) + (s[|s| - 1] as int - '0' as int)
  }

  lemma {:induction false} DecimalRoundTrip(n: nat)
    ensures ParseDecimal(Decimal(n)) == n
  {
    if n >= 10 {
      var s := Decimal(n);
      assert s[..|s| - 1] == Decimal(n / 10);
      DecimalRoundTrip(n / 10);
    }
  }

  // ---------------------------------------------------------------------------
  // Plain objects: string keys in insertion order, each key once
  // ---------------------------------------------------------------------------

  ghost predicate UniqueKeys<V>(o: seq<(string, V)>)
  {
    forall i, j :: 0 <= i < j < |o| ==> o[i].0 != o[j].0
  }

  /** A JavaScript object: its own enumerable properties in key order. */
  type Obj<V> = o: seq<(string, V)> | UniqueKeys(o) witness []

  /** Reading a property; None stands for `undefined`. */
  function Get<V>(o: seq<(string, V)>, k: string): Option<V>
  {
    if |o| == 0 then None
    else if o[0].0 == k then Some(o[0].1)
    else Get(o[1..], k)
  }

  function KeySeq<V>(o: seq<(string, V)>): seq<string>
  {
    if |o| == 0 then [] else [o[0].0] + KeySeq(o[1..])
  }

  /**
   * Property assignment `o[k] = v`: an existing key keeps its position and
   * takes the new value, a new key goes last.
   */
  function Set<V>(o: Obj<V>, k: string, v: V): (r: Obj<V>)
    ensures Get(r, k) == Some(v)
    ensures forall k' :: k' != k ==> Get(r, k') == Get(o, k')
    ensures Get(o, k).Some? ==> KeySeq(r) == KeySeq(o)
    ensures Get(o, k).None? ==> KeySeq(r) == KeySeq(o) + [k]
  {
    if |o| == 0 then
      [(k, v)]
    else if o[0].0 == k then
      NoKeyAfterFirst(o);
      var r := [(k, v)] + o[1..];
      assert r[1..] == o[1..];
      r
    else
      var tail := Set(o[1..], k, v);
      var r := [o[0]] + tail;
      assert r[1..] == tail;
      assert Get(o[1..], o[0].0) == None by { NoKeyAfterFirst(o); }
      assert UniqueKeys(r) by {
        forall i, j | 0 <= i < j < |r| ensures r[i].0 != r[j].0 {
          if i == 0 {
            KeyFound(tail, j - 1);
            assert Get(tail, o[0].0) == Get(o[1..], o[0].0);
          }
        }
      }
      r
  }

  lemma {:induction false} KeyFound<V>(o: seq<(string, V)>, j: nat)
    requires j < |o|
    ensures Get(o, o[j].0).Some?
  {
    if j > 0 && o[0].0 != o[j].0 {
      KeyFound(o[1..], j - 1);
    }
  }

  lemma {:induction false} NoKeyAfterFirst<V>(o: Obj<V>)
    requires |o| > 0
    ensures Get(o[1..], o[0].0) == None
  {
    var t: Obj<V> := o[1..];
    AbsentKey(t, o[0].0);
  }

  lemma {:induction false} AbsentKey<V>(o: seq<(string, V)>, k: string)
    requires forall i :: 0 <= i < |o| ==> o[i].0 != k
    ensures Get(o, k) == None
  {
    if |o| > 0 {
      AbsentKey(o[1..], k);
    }
  }

  /** In an object, reading k finds v exactly when the pair (k, v) is one of its properties. */
  lemma {:induction false} GetIndex<V>(o: Obj<V>, k: string, v: V)
    ensures Get(o, k) == Some(v) <==> exists i :: 0 <= i < |o| && o[i] == (k, v)
  {
    if |o| > 0 {
      var t: Obj<V> := o[1..];
      GetIndex(t, k, v);
      if o[0].0 == k {
        forall i | 0 < i < |o| ensures o[i].0 != k {
          assert o[0].0 != o[i].0;
        }
      } else {
        forall i | 0 < i < |o| ensures o[i] == t[i - 1] {
        }
        if Get(o, k) == Some(v) {
          var j :| 0 <= j < |t| && t[j] == (k, v);
          assert o[j + 1] == (k, v);
        }
      }
    }
  }

  /** FormData.getAll: every value appended under `k`, in order. */
  function GetAll<V>(es: seq<(string, V)>, k: string): seq<V>
  {
    if |es| == 0 then []
    else GetAll(es[..|es| - 1], k) + (if es[|es| - 1].0 == k then [es[|es| - 1].1] else [])
  }

  /**
   * Object.fromEntries: the entries assigned one after another, so a
   * repeated name keeps its first position and its last value.
   */
  function FromEntries<V>(es: seq<(string, V)>): Obj<V>
  {
    if |es| == 0 then [] else Set(FromEntries(es[..|es| - 1]), es[|es| - 1].0, es[|es| - 1].1)
  }

  /** The single value Object.fromEntries keeps is the last of FormData.getAll. */
  lemma {:induction false} FromEntriesKeepsLast<V>(es: seq<(string, V)>, k: string)
    ensures var all := GetAll(es, k);
            Get(FromEntries(es), k) == if |all| == 0 then None else Some(all[|all| - 1])
    decreases |es|
  {
    if |es| > 0 {
      FromEntriesKeepsLast(es[..|es| - 1], k);
    }
  }

  lemma {:induction false} GetAllAppend<V>(es: seq<(string, V)>, extra: seq<(string, V)>, k: string)
    ensures GetAll(es + extra, k) == GetAll(es, k) + GetAll(extra, k)
    decreases |extra|
  {
    if |extra| > 0 {
      var n := |extra| - 1;
      assert (es + extra)[..|es + extra| - 1] == es + extra[..n];
      GetAllAppend(es, extra[..n], k);
    } else {
      assert es + extra == es;
    }
  }
}
