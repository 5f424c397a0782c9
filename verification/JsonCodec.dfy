/** A codec of JSON values that gives back what it printed. It writes tags and lengths where
    JSON has punctuation, so it shows what the models ask of JSON.stringify and JSON.parse can
    be had for all values at once. */
module JsonCodec {
  import opened Prelude
  import opened Json
  import opened Collections

  // ---- Printing ----

  function PrintString(s: string): Text {
    [|s|] + seq(|s|, i requires 0 <= i < |s| => s[i] as int)
  }

  /** An infinite number prints as null. */
  ghost function Print(v: Json): Text
    decreases v
  {
    match v
    case Null => [0]
    case Bool(b) => [1, if b then 1 else 0]
    case Num(Whole(n)) => [2, n]
    case Num(Fraction(m, halvings)) => [3, m, halvings]
    case Num(Infinite(_)) => [0]
    case Str(s) => [4] + PrintString(s)
    case Arr(items) => [5, |items|] + PrintItems(v, 0)
    case Obj(fields) => [6, |fields|] + PrintFields(v, fields.Keys)
  }

  ghost function PrintItems(v: Json, i: nat): Text
    requires v.Arr? && i <= |v.items|
    decreases v, |v.items| - i
  {
    if i == |v.items| then [] else Print(v.items[i]) + PrintItems(v, i + 1)
  }

  ghost function Pick(keys: set<string>): (key: string)
    requires keys != {}
    ensures key in keys
  {
    var key :| key in keys; key
  }

  /** The fields of some keys, in any order. */
  ghost function PrintFields(v: Json, keys: set<string>): Text
    requires v.Obj? && keys <= v.fields.Keys
    decreases v, |keys|
  {
    if keys == {} then []
    else
      var key := Pick(keys);
      PrintString(key) + Print(v.fields[key]) + PrintFields(v, keys - {key})
  }

  // ---- Parsing ----

  predicate IsChar(x: int) {
    0 <= x < 0xD800 || 0xE000 <= x < 0x11_0000
  }

  function ParseString(t: Text): (r: Option<(string, Text)>)
    ensures r.Some? ==> |r.value.1| < |t|
  {
    if t == [] || !(0 <= t[0] < |t|) then None
    else
      var codes := t[1..1 + t[0]];
      if forall i | 0 <= i < |codes| :: IsChar(codes[i])
      then Some((seq(|codes|, i requires 0 <= i < |codes| => codes[i] as char), t[1 + t[0]..]))
      else None
  }

  /** The value that the text begins with, and the rest of the text. */
  function Parse(t: Text): (r: Option<(Json, Text)>)
    ensures r.Some? ==> |r.value.1| < |t|
    decreases |t|, 0
  {
    if t == [] then None
    else if t[0] == 0 then Some((Null, t[1..]))
    else if t[0] == 4 then
      match ParseString(t[1..]) case None => None case Some((s, rest)) => Some((Str(s), rest))
    else if |t| < 2 then None
    else if t[0] == 1 then Some((Bool(t[1] == 1), t[2..]))
    else if t[0] == 2 then Some((Num(Whole(t[1])), t[2..]))
    else if t[0] == 3 then
      if |t| >= 3 && t[1] % 2 == 1 && t[2] >= 1 then Some((Num(Fraction(t[1], t[2])), t[3..])) else None
    else if t[1] < 0 then None
    else if t[0] == 5 then
      match ParseItems(t[1], t[2..]) case None => None case Some((items, rest)) => Some((Arr(items), rest))
    else if t[0] == 6 then
      match ParseFields(t[1], t[2..]) case None => None case Some((fields, rest)) => Some((Obj(fields), rest))
    else None
  }

  function ParseItems(n: nat, t: Text): (r: Option<(seq<Json>, Text)>)
    ensures r.Some? ==> |r.value.1| <= |t|
    decreases |t|, n
  {
    if n == 0 then Some(([], t))
    else match Parse(t)
      case None => None
      case Some((v, rest)) =>
        match ParseItems(n - 1, rest) case None => None case Some((items, end)) => Some(([v] + items, end))
  }

  function ParseFields(n: nat, t: Text): (r: Option<(map<string, Json>, Text)>)
    ensures r.Some? ==> |r.value.1| <= |t|
    decreases |t|, n
  {
    if n == 0 then Some((map[], t))
    else match ParseString(t)
      case None => None
      case Some((key, value)) =>
        match Parse(value)
        case None => None
        case Some((v, rest)) =>
          match ParseFields(n - 1, rest) case None => None case Some((fields, end)) => Some((fields[key := v], end))
  }

  /** The value that the whole text is. */
  function ParseAll(t: Text): Option<Json> {
    match Parse(t)
    case Some((v, rest)) => if rest == [] then Some(v) else None
    case None => None
  }

  // ---- Parsing gives back what was printed ----

  lemma StringBack(s: string, rest: Text)
    ensures ParseString(PrintString(s) + rest) == Some((s, rest))
  {
    var t := PrintString(s) + rest;
    var codes := t[1..1 + |s|];
    assert forall i | 0 <= i < |s| :: codes[i] == s[i] as int && codes[i] as char == s[i];
    assert seq(|codes|, i requires 0 <= i < |codes| => codes[i] as char) == s;
    assert t[1 + |s|..] == rest;
  }

  lemma SimpleBack(v: Json, rest: Text)
    requires Printable(v) && !v.Arr? && !v.Obj?
    ensures Parse(Print(v) + rest) == Some((v, rest))
  {
    var t := Print(v) + rest;
    assert t[|Print(v)|..] == rest;
    if v.Str? {
      hide PrintString, ParseString;
      StringBack(v.s, rest);
      assert t[1..] == PrintString(v.s) + rest;
    }
  }

  lemma {:induction false} ValueBack(v: Json, rest: Text)
    requires Printable(v)
    ensures Parse(Print(v) + rest) == Some((v, rest))
    decreases v
  {
    hide PrintItems, PrintFields, ParseItems, ParseFields, ParseString, PrintString;
    var t := Print(v) + rest;
    if v.Arr? {
      ItemsBack(v, 0, rest);
      assert t[2..] == PrintItems(v, 0) + rest && v.items[0..] == v.items;
    } else if v.Obj? {
      FieldsBack(v, v.fields.Keys, rest);
      assert t[2..] == PrintFields(v, v.fields.Keys) + rest;
      assert FieldsOf(v, v.fields.Keys) == v.fields;
    } else {
      SimpleBack(v, rest);
    }
  }

  lemma {:induction false} ItemsBack(v: Json, i: nat, rest: Text)
    requires Printable(v) && v.Arr? && i <= |v.items|
    ensures ParseItems(|v.items| - i, PrintItems(v, i) + rest) == Some((v.items[i..], rest))
    decreases v, |v.items| - i
  {
    if i < |v.items| {
      var more := PrintItems(v, i + 1) + rest;
      assert Printable(v.items[i]);
      FirstItem(v, i);
      hide *;
      ValueBack(v.items[i], more);
      ItemsBack(v, i + 1, rest);
      Regroup(Print(v.items[i]), PrintItems(v, i + 1), rest);
      ItemBack(v.items[i], |v.items| - i - 1, more, v.items[i + 1..], rest);
      assert v.items[i..] == [v.items[i]] + v.items[i + 1..];
    } else {
      assert PrintItems(v, i) + rest == rest && v.items[i..] == [];
    }
  }

  lemma FirstItem(v: Json, i: nat)
    requires v.Arr? && i < |v.items|
    ensures PrintItems(v, i) == Print(v.items[i]) + PrintItems(v, i + 1)
  {
    hide Print;
  }

  lemma ItemBack(value: Json, n: nat, more: Text, items: seq<Json>, rest: Text)
    requires Parse(Print(value) + more) == Some((value, more)) && ParseItems(n, more) == Some((items, rest))
    ensures ParseItems(n + 1, Print(value) + more) == Some(([value] + items, rest))
  {
    hide Print, Parse;
  }

  ghost function FieldsOf(v: Json, keys: set<string>): map<string, Json>
    requires v.Obj? && keys <= v.fields.Keys
  {
    map k | k in keys :: v.fields[k]
  }

  lemma {:induction false} FieldsBack(v: Json, keys: set<string>, rest: Text)
    requires Printable(v) && v.Obj? && keys <= v.fields.Keys
    ensures ParseFields(|keys|, PrintFields(v, keys) + rest) == Some((FieldsOf(v, keys), rest))
    decreases v, |keys|
  {
    if keys == {} {
      assert PrintFields(v, keys) + rest == rest;
    } else {
      var key := Pick(keys);
      FirstField(v, keys);
      assert Printable(v.fields[key]);
      hide *;
      var others := keys - {key};
      var more := PrintFields(v, others) + rest;
      ValueBack(v.fields[key], more);
      FieldsBack(v, others, rest);
      FieldBack(key, v.fields[key], |others|, more, FieldsOf(v, others), rest);
      FieldFirst(PrintString(key), Print(v.fields[key]), PrintFields(v, others), rest);
      OneMoreField(v, others, key);
      assert keys == others + {key} && |keys| == |others| + 1;
    }
  }

  lemma FirstField(v: Json, keys: set<string>)
    requires v.Obj? && keys <= v.fields.Keys && keys != {}
    ensures PrintFields(v, keys)
            == PrintString(Pick(keys)) + Print(v.fields[Pick(keys)]) + PrintFields(v, keys - {Pick(keys)})
  {
    hide Pick, Print, PrintString;
  }

  lemma FieldFirst(key: Text, value: Text, others: Text, rest: Text)
    ensures key + value + others + rest == key + (value + (others + rest))
  {
    Regroup(key, value, others);
    Regroup(key, value + others, rest);
    Regroup(value, others, rest);
  }

  lemma OneMoreField(v: Json, keys: set<string>, key: string)
    requires v.Obj? && keys <= v.fields.Keys && key in v.fields
    ensures FieldsOf(v, keys)[key := v.fields[key]] == FieldsOf(v, keys + {key})
  {
  }

  lemma FieldBack(key: string, value: Json, n: nat, more: Text, fields: map<string, Json>, rest: Text)
    requires Parse(Print(value) + more) == Some((value, more)) && ParseFields(n, more) == Some((fields, rest))
    ensures ParseFields(n + 1, PrintString(key) + (Print(value) + more)) == Some((fields[key := value], rest))
  {
    StringBack(key, Print(value) + more);
    hide Print, PrintString, Parse, ParseString;
  }

  /** A lawful codec exists. */
  lemma LawfulCodecExists() returns (codec: Codec)
    ensures Lawful(codec)
  {
    codec := Codec(v => Print(v), ParseAll);
    forall v | Printable(v) ensures codec.stringify(v) != [] && codec.parse(codec.stringify(v)) == Some(v) {
      ValueBack(v, []);
      assert Print(v) + [] == Print(v);
    }
  }
}
