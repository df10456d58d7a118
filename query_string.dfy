/**
 * The `key=value&key=value` form of the gateway's trade string: joining
 * fields with a separator, and splitting them apart again.
 */
module QueryString {
  import opened Common

  /** `parts.join([sep])` */
  function Join(parts: seq<string>, sep: char): string
  {
    if parts == [] then ""
    else if |parts| == 1 then parts[0]
    else parts[0] + [sep] + Join(parts[1..], sep)
  }

  /** `s.split(sep)`: the pieces between separators, always at least one. */
  function Split(s: string, sep: char): (parts: seq<string>)
    ensures |parts| >= 1
    decreases |s|
  {
    if s == [] then [""]
    else if s[0] == sep then [""] + Split(s[1..], sep)
    else
      var rest := Split(s[1..], sep);
      [[s[0]] + rest[0]] + rest[1..]
  }

  /** Splits a field at its first `=`; None if it has none. */
  function KeyValue(field: string): Option<(string, string)>
    decreases |field|
  {
    if field == [] then None
    else if field[0] == '=' then Some(("", field[1..]))
    else
      match KeyValue(field[1..])
      case None => None
      case Some((k, v)) => Some(([field[0]] + k, v))
  }

  /** Splits on `&`, then each piece on its first `=`. */
  function Fields(s: string): seq<Option<(string, string)>>
  {
    var parts := Split(s, '&');
    seq(|parts|, i requires 0 <= i < |parts| => KeyValue(parts[i]))
  }

  lemma {:induction false} SplitWithout(x: string, sep: char)
    requires sep !in x
    ensures Split(x, sep) == [x]
  {
    if x != [] {
      SplitWithout(x[1..], sep);
      assert [x[0]] + x[1..] == x;
    }
  }

  lemma {:induction false} SplitCons(x: string, sep: char, y: string)
    requires sep !in x
    ensures Split(x + [sep] + y, sep) == [x] + Split(y, sep)
  {
    var s := x + [sep] + y;
    if x == [] {
      assert s[0] == sep && s[1..] == y;
    } else {
      assert s[0] == x[0] && s[1..] == x[1..] + [sep] + y;
      SplitCons(x[1..], sep, y);
      assert [x[0]] + x[1..] == x;
    }
  }

  /** Splitting undoes joining when no part contains the separator. */
  lemma {:induction false} SplitJoin(parts: seq<string>, sep: char)
    requires |parts| >= 1
    requires forall i | 0 <= i < |parts| :: sep !in parts[i]
    ensures Split(Join(parts, sep), sep) == parts
  {
    if |parts| == 1 {
      SplitWithout(parts[0], sep);
    } else {
      SplitJoin(parts[1..], sep);
      SplitCons(parts[0], sep, Join(parts[1..], sep));
      assert [parts[0]] + parts[1..] == parts;
    }
  }

  lemma {:induction false} KeyValueOf(key: string, value: string)
    requires '=' !in key
    ensures KeyValue(key + "=" + value) == Some((key, value))
  {
    var f := key + "=" + value;
    if key == [] {
      assert f[0] == '=' && f[1..] == value;
    } else {
      assert f[0] == key[0] && f[1..] == key[1..] + "=" + value;
      KeyValueOf(key[1..], value);
      assert [key[0]] + key[1..] == key;
    }
  }
}
