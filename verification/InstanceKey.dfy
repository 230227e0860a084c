/** The runtime's instance table is keyed by one string built from the task name and the instance id. */
module InstanceKey {

  const SEPARATOR := ':'

  function Key(name: string, id: string): (key: string)
    ensures SEPARATOR in key
  {
    assert (name + [SEPARATOR] + id)[|name|] == SEPARATOR;
    name + [SEPARATOR] + id
  }

  /** String.prototype.indexOf for a single character. */
  function IndexOf(s: string, c: char): (i: int)
    ensures -1 <= i < |s|
    ensures i == -1 <==> c !in s
    ensures i >= 0 ==> s[i] == c && c !in s[..i]
  {
    if s == [] then -1
    else if s[0] == c then 0
    else
      var i := IndexOf(s[1..], c);
      if i == -1 then -1
      else
        assert s[..i + 1] == [s[0]] + s[1..][..i];
        i + 1
  }

  /** Splits at the first separator. Without one the index is -1, and slice(0, -1) drops the last character. */
  function Parse(key: string): (string, string) {
    var i := IndexOf(key, SEPARATOR);
    if i == -1 then (if key == [] then [] else key[..|key| - 1], key)
    else (key[..i], key[i + 1..])
  }

  lemma FirstSeparator(name: string, id: string)
    ensures IndexOf(Key(name, id), SEPARATOR) <= |name|
    ensures IndexOf(Key(name, id), SEPARATOR) == |name| <==> SEPARATOR !in name
  {
    var key, i := Key(name, id), IndexOf(Key(name, id), SEPARATOR);
    assert key[|name|] == SEPARATOR;
    assert forall j :: 0 <= j < i ==> key[j] in key[..i];
    assert forall j :: 0 <= j < |name| ==> key[j] == name[j];
  }

  /** Parsing gives back the name and id that built the key exactly when the name has no separator. */
  lemma ParseInvertsKey(name: string, id: string)
    ensures Parse(Key(name, id)) == (name, id) <==> SEPARATOR !in name
  {
    FirstSeparator(name, id);
    var key, i := Key(name, id), IndexOf(Key(name, id), SEPARATOR);
    assert key[..|name|] == name && key[|name| + 1..] == id;
  }

  /**
   * Whatever the name was, the parsed parts name the same table entry, unless the key has no separator at all; then the
   * name is the key without its last character, and the id the whole key.
   */
  lemma KeyInvertsParse(key: string)
    ensures Key(Parse(key).0, Parse(key).1) == key <==> SEPARATOR in key
    ensures SEPARATOR !in key ==> Parse(key).1 == key && Parse(key).0 <= key
    ensures SEPARATOR !in key ==> |Parse(key).0| == if key == "" then 0 else |key| - 1
  {
  }

  /** Two tasks with separator-free names never share a table entry. */
  lemma KeyInjective(n1: string, i1: string, n2: string, i2: string)
    requires SEPARATOR !in n1 && SEPARATOR !in n2
    ensures Key(n1, i1) == Key(n2, i2) <==> n1 == n2 && i1 == i2
  {
    ParseInvertsKey(n1, i1);
    ParseInvertsKey(n2, i2);
  }

  /** A name with a separator always shares its entries with a different, separator-free name. */
  lemma SeparatorCollides(name: string, id: string)
    requires SEPARATOR in name
    ensures var (n, i) := Parse(Key(name, id));
            Key(n, i) == Key(name, id) && SEPARATOR !in n && n != name
  {
  }

  // ----- Names that share keys -----

  /** Some id of task `name` is stored under `key`. */
  predicate Names(name: string, key: string) {
    |name| < |key| && key[..|name|] == name && key[|name|] == SEPARATOR
  }

  lemma NamesItsKeys(name: string, id: string)
    ensures Names(name, Key(name, id))
  {
  }

  lemma KeyOfNamed(name: string, key: string)
    requires Names(name, key)
    ensures Key(name, key[|name| + 1..]) == key
    ensures SEPARATOR in key
    ensures SEPARATOR !in name ==> Parse(key).0 == name
  {
    var id := key[|name| + 1..];
    assert key == name + [SEPARATOR] + id;
    ParseInvertsKey(name, id);
  }

  /** Two task names have a key in common exactly when they are equal or one continues the other behind a separator. */
  lemma KeysShared(a: string, b: string)
    ensures (exists i, j :: Key(a, i) == Key(b, j)) <==> a == b || Names(a, b) || Names(b, a)
  {
    forall i, j | Key(a, i) == Key(b, j) ensures a == b || Names(a, b) || Names(b, a) {
      NamesItsKeys(a, i);
      NamesItsKeys(b, j);
      NamesShared(a, b, Key(a, i));
    }
    if a == b {
      assert Key(a, "") == Key(b, "");
    } else if Names(a, b) {
      KeyContinues(a, b);
    } else if Names(b, a) {
      KeyContinues(b, a);
    }
  }

  lemma NamesShared(a: string, b: string, key: string)
    requires Names(a, key) && Names(b, key)
    ensures a == b || Names(a, b) || Names(b, a)
  {
    if |a| < |b| {
      assert key[..|b|][..|a|] == key[..|a|] && key[..|b|][|a|] == key[|a|];
    } else if |b| < |a| {
      assert key[..|a|][..|b|] == key[..|b|] && key[..|a|][|b|] == key[|b|];
    }
  }

  lemma KeyContinues(a: string, b: string)
    requires Names(a, b)
    ensures Key(a, b[|a| + 1..] + [SEPARATOR]) == Key(b, "")
  {
    assert b == a + [SEPARATOR] + b[|a| + 1..];
  }
}
