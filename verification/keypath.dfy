/**
 * Key paths (the key-path construct of the W3C Indexed Database API, section
 * 2.5 of its 2.0 edition).
 *
 * On the PureScript side a key path is a list of strings: no element means
 * out-of-line keys, one element a single path, two or more a compound key.
 * The engine takes and reports a key path as `undefined`/`null`, a string or
 * an array of strings. One encoder (used by `_createObjectStore`) and two
 * decoders (the object store's `keyPath` and the index's `_keyPath`) convert
 * between the two forms.
 */
module KeyPaths {

  /** A key path as the engine holds it. */
  datatype NativeKeyPath =
    | Undefined
    | Null
    | Str(path: string)
    | Arr(paths: seq<string>)

  /** The separator the object-store decoder splits a string key path on. */
  const Separator: char := ':'

  /**
   * The switch on `opts.keyPath.length` in `_createObjectStore`: no element
   * becomes `undefined` (never the empty array the engine would refuse), one
   * element becomes the bare string, and longer lists are passed as arrays.
   */
  function Encode(keyPath: seq<string>): (k: NativeKeyPath)
    ensures k.Undefined? <==> keyPath == []
    ensures k.Str? <==> |keyPath| == 1
    ensures k.Str? ==> k.path == keyPath[0]
    ensures k.Arr? ==> |k.paths| >= 2 && k.paths == keyPath
    ensures !k.Null?
  {
    match |keyPath|
    case 0 => Undefined
    case 1 => Str(keyPath[0])
    case _ => Arr(keyPath)
  }

  /** The three arities are kept apart: no two key paths share a native form. */
  lemma EncodeInjective(p: seq<string>, q: seq<string>)
    requires Encode(p) == Encode(q)
    ensures p == q
  {
  }

  /**
   * `String.prototype.split` with a one-character separator: the pieces
   * between consecutive separators, in order. There is always at least one
   * piece (the empty string splits into one empty piece) and no piece
   * contains the separator.
   */
  function Split(s: string, sep: char): (parts: seq<string>)
    ensures |parts| >= 1
    ensures forall i :: 0 <= i < |parts| ==> sep !in parts[i]
    decreases |s|
  {
    if s == [] then [[]]
    else
      var rest := Split(s[1..], sep);
      if s[0] == sep then [[]] + rest
      else [[s[0]] + rest[0]] + rest[1..]
  }

  /** `Array.prototype.join` with a one-character separator. */
  function Join(parts: seq<string>, sep: char): (s: string)
    decreases |parts|
  {
    if parts == [] then []
    else if |parts| == 1 then parts[0]
    else parts[0] + [sep] + Join(parts[1..], sep)
  }

  /** Joining the pieces of a split reproduces the original string. */
  lemma {:induction false} JoinSplit(s: string, sep: char)
    ensures Join(Split(s, sep), sep) == s
    decreases |s|
  {
    if s != [] {
      var rest := Split(s[1..], sep);
      JoinSplit(s[1..], sep);
      if s[0] == sep {
        assert Split(s, sep) == [[]] + rest;
        assert Join(Split(s, sep), sep) == [] + [sep] + Join(rest, sep);
      } else if |rest| == 1 {
        assert Split(s, sep) == [[s[0]] + rest[0]];
        assert [s[0]] + s[1..] == s;
      } else {
        var parts := Split(s, sep);
        assert parts == [[s[0]] + rest[0]] + rest[1..];
        assert parts[1..] == rest[1..];
        assert Join(rest, sep) == rest[0] + [sep] + Join(rest[1..], sep);
        assert Join(parts, sep) == [s[0]] + rest[0] + [sep] + Join(rest[1..], sep);
        assert [s[0]] + s[1..] == s;
      }
    }
  }

  /** A string without the separator is a single piece. */
  lemma {:induction false} SplitWithoutSeparator(p: string, sep: char)
    requires sep !in p
    ensures Split(p, sep) == [p]
    decreases |p|
  {
    if p != [] {
      SplitWithoutSeparator(p[1..], sep);
      assert [p[0]] + p[1..] == p;
    }
  }

  /** A separator after a separator-free prefix ends the first piece. */
  lemma {:induction false} SplitAtSeparator(p: string, t: string, sep: char)
    requires sep !in p
    ensures Split(p + [sep] + t, sep) == [p] + Split(t, sep)
    decreases |p|
  {
    var s := p + [sep] + t;
    if p == [] {
      assert s[0] == sep && s[1..] == t;
    } else {
      assert s[0] == p[0] && s[1..] == p[1..] + [sep] + t;
      SplitAtSeparator(p[1..], t, sep);
      assert [p[0]] + p[1..] == p;
    }
  }

  /** Splitting a join gives the pieces back, provided there is at least one
      piece and none of them contains the separator. */
  lemma {:induction false} SplitJoin(parts: seq<string>, sep: char)
    requires |parts| >= 1
    requires forall i :: 0 <= i < |parts| ==> sep !in parts[i]
    ensures Split(Join(parts, sep), sep) == parts
    decreases |parts|
  {
    if |parts| == 1 {
      SplitWithoutSeparator(parts[0], sep);
    } else {
      SplitJoin(parts[1..], sep);
      SplitAtSeparator(parts[0], Join(parts[1..], sep), sep);
      assert [parts[0]] + parts[1..] == parts;
    }
  }

  /**
   * The object store's `keyPath` getter: an array is returned unchanged, a
   * string is split on ':', and anything else (null, undefined) is the empty
   * list.
   */
  function StoreKeyPath(k: NativeKeyPath): (r: seq<string>)
    ensures k.Arr? ==> r == k.paths
    ensures k.Str? ==> |r| >= 1 && Join(r, Separator) == k.path
    ensures k.Str? ==> forall i :: 0 <= i < |r| ==> Separator !in r[i]
    ensures (k.Undefined? || k.Null?) ==> r == []
  {
    match k
    case Arr(paths) => paths
    case Str(path) => JoinSplit(path, Separator); Split(path, Separator)
    case _ => []
  }

  /** A string without ':' (the empty string included) is read back as itself. */
  lemma StoreKeyPathOfPlainString(s: string)
    requires Separator !in s
    ensures StoreKeyPath(Str(s)) == [s]
  {
    SplitWithoutSeparator(s, Separator);
  }

  /**
   * The index's `_keyPath` getter (the same code in the index module and in
   * its Internal variant): an array is returned unchanged, a non-empty
   * string becomes the one-element list, and the empty string, null and
   * undefined all become the empty list.
   */
  function IndexKeyPath(k: NativeKeyPath): (r: seq<string>)
    ensures k.Arr? ==> r == k.paths
    ensures k.Str? && k.path != "" ==> r == [k.path]
    ensures !k.Arr? && !(k.Str? && k.path != "") ==> r == []
  {
    match k
    case Arr(paths) => paths
    case Str(path) => if path != "" then [path] else []
    case _ => []
  }

  /** On a string key path the two decoders agree exactly when the string is
      non-empty and has no ':'. */
  lemma DecodersAgreeOnString(s: string)
    ensures StoreKeyPath(Str(s)) == IndexKeyPath(Str(s)) <==> s != "" && Separator !in s
  {
    if Separator !in s {
      StoreKeyPathOfPlainString(s);
    } else {
      assert s != "";
      var r := StoreKeyPath(Str(s));
      assert r != [s] by {
        assert Separator !in r[0];
      }
    }
  }

  /**
   * Creating a store and reading its key path back: every key path survives
   * except a one-element path whose element contains ':', which comes back
   * split into its ':'-separated pieces.
   */
  lemma StoreRoundTrip(keyPath: seq<string>)
    ensures StoreKeyPath(Encode(keyPath)) == keyPath
        <==> !(|keyPath| == 1 && Separator in keyPath[0])
  {
    if |keyPath| == 1 {
      var s := keyPath[0];
      assert keyPath == [s];
      if Separator !in s {
        StoreKeyPathOfPlainString(s);
      } else {
        var r := StoreKeyPath(Str(s));
        assert Separator !in r[0];
        assert r != keyPath;
      }
    }
  }

  /** A one-element path containing ':' comes back as its pieces. */
  lemma StoreRoundTripSplits(s: string)
    ensures StoreKeyPath(Encode([s])) == Split(s, Separator)
    ensures Separator in s ==> |StoreKeyPath(Encode([s]))| >= 2
  {
    if Separator in s {
      var r := Split(s, Separator);
      JoinSplit(s, Separator);
      assert r != [r[0]];
    }
  }

  /**
   * The index getter applied to the encoder's output: every key path survives
   * except `[""]`, which comes back as the empty list (out-of-line keys).
   */
  lemma IndexRoundTrip(keyPath: seq<string>)
    ensures IndexKeyPath(Encode(keyPath)) == keyPath <==> keyPath != [""]
    ensures IndexKeyPath(Encode([""])) == []
  {
    if |keyPath| == 1 {
      assert keyPath == [keyPath[0]];
    }
  }
}
