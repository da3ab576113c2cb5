/**
 * The fee schedule as the fee calculator reads it: a tree of JSON objects whose
 * leaves are numbers or numeric strings. `GetObject` and `GetDouble` are org.json's
 * `getJSONObject` and `getDouble`, with a thrown exception shown as `None`.
 */
module FeeSchedule {
  import opened Wrappers
  import opened Strings

  /** A JSON value: a number, a string, an object, or anything else (array, boolean, null). */
  datatype Node = Num(amount: real) | Text(text: string) | Obj(fields: map<string, Node>) | Other

  /**
   * The number `getDouble` makes of a value: a number as it is, a string by parsing it
   * (here: a non-empty run of decimal digits), and nothing for any other value.
   */
  function LeafNumber(n: Node): (r: Option<real>)
    ensures n.Num? ==> r == Some(n.amount)
    ensures n.Obj? || n.Other? ==> r.None?
    ensures n.Text? ==> (r.Some? <==> n.text != [] && AllDigits(n.text))
  {
    match n
    case Num(amount) => Some(amount)
    case Text(text) => if text != [] && AllDigits(text) then Some(DigitsValue(text) as real) else None
    case _ => None
  }

  /** A fee written as a JSON string of digits reads as that fee. */
  lemma NumeralLeafReadsBack(fee: nat)
    ensures LeafNumber(Text(NatToString(fee))) == Some(fee as real)
  {
    DigitsValueOfNatToString(fee);
  }

  /** `getJSONObject(key)`: the member `key` of an object, when it is itself an object. */
  function GetObject(n: Node, key: string): Option<Node> {
    if n.Obj? && key in n.fields && n.fields[key].Obj? then Some(n.fields[key]) else None
  }

  /** `getDouble(key)`: the member `key` of an object, read as a number. */
  function GetDouble(n: Node, key: string): Option<real> {
    if n.Obj? && key in n.fields then LeafNumber(n.fields[key]) else None
  }

  /**
   * The number reached from `n` by following `path` key by key, or `None` when a key is
   * missing, an inner value is not an object, or the last value does not read as a number.
   */
  function LookupPath(n: Node, path: seq<string>): Option<real>
    decreases path
  {
    if path == [] then
      LeafNumber(n)
    else if n.Obj? && path[0] in n.fields then
      LookupPath(n.fields[path[0]], path[1..])
    else
      None
  }

  /** Following a path of two or more keys is `getJSONObject` on the first, then the rest. */
  lemma LookupPathStep(n: Node, key: string, rest: seq<string>)
    requires rest != []
    ensures LookupPath(n, [key] + rest)
            == (match GetObject(n, key) case Some(child) => LookupPath(child, rest) case None => None)
  {
    assert ([key] + rest)[1..] == rest;
    if n.Obj? && key in n.fields && !n.fields[key].Obj? {
      var child := n.fields[key];
      assert LookupPath(child, rest) == None;
    }
  }

  /** Following a path of one key is `getDouble` on it. */
  lemma LookupPathLast(n: Node, key: string)
    ensures LookupPath(n, [key]) == GetDouble(n, key)
  {
    assert [key][1..] == [];
  }

  /** `getJSONObject` applied key after key. */
  function FollowObjects(n: Node, keys: seq<string>): Option<Node>
    decreases keys
  {
    if keys == [] then Some(n)
    else
      var child :- GetObject(n, keys[0]);
      FollowObjects(child, keys[1..])
  }

  lemma FollowObjectsCons(n: Node, key: string, rest: seq<string>)
    ensures FollowObjects(n, [key] + rest)
            == (match GetObject(n, key) case Some(child) => FollowObjects(child, rest) case None => None)
  {
    assert ([key] + rest)[1..] == rest;
  }

  /** A path splits into the objects it passes through and the lookup that remains. */
  lemma {:induction false} LookupPathSplit(n: Node, keys: seq<string>, tail: seq<string>)
    requires tail != []
    ensures LookupPath(n, keys + tail)
            == (match FollowObjects(n, keys) case Some(m) => LookupPath(m, tail) case None => None)
    decreases keys
  {
    if keys != [] {
      assert keys + tail == [keys[0]] + (keys[1..] + tail);
      LookupPathStep(n, keys[0], keys[1..] + tail);
      if GetObject(n, keys[0]).Some? {
        LookupPathSplit(GetObject(n, keys[0]).value, keys[1..], tail);
      }
    } else {
      assert keys + tail == tail;
    }
  }
}
