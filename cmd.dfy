/**
 * Pieces of the command package shared by the subscribe and get commands: the canonical
 * message (`msg` and `update`), the formatting of gNMI updates into it, the parsing of an
 * encoding name, and the collaborators the commands call but whose code is not modelled.
 */
module Cmd {
  import opened Wrappers
  import opened Text
  import opened Gnmi

  /** Output metadata: outputs.Meta, and the string-valued meta map of the formatter. */
  type Meta = map<string, string>

  /** What getValue returns for a TypedValue, kept as its JSON rendering. */
  datatype Value = Value(json: string)

  /** One formatted update: the rendered path and a map holding exactly one value. */
  datatype UpdateEntry = UpdateEntry(path: string, values: map<string, Value>)

  /** The canonical message; the derived `time` field and the unused `meta` field are not kept. */
  datatype Msg = Msg(
    source: string,
    systemName: string,
    subscriptionName: string,
    timestamp: int,
    prefix: string,
    updates: seq<UpdateEntry>,
    deletes: seq<string>)

  /**
   * The functions the commands call whose code is outside the model:
   * xpath.ToGNMIPath, gnmiPathToXPath, getValue (its error is only logged, the value is used),
   * time.ParseDuration, viper.GetDuration, json.Marshal, json.MarshalIndent,
   * prototext.Format of a subscribe and of a get response, and indent.
   */
  datatype Collaborators = Collaborators(
    toGnmiPath: string -> Result<Option<Path>, string>,
    toXPath: Option<Path> -> string,
    getValue: TypedValue -> Value,
    parseDuration: string -> Result<int, string>,
    getDuration: string -> int,
    marshal: Msg -> Result<seq<bv8>, string>,
    marshalIndent: (Msg, string) -> Result<string, string>,
    subscribeText: SubscribeResponse -> seq<bv8>,
    getText: GetResponse -> string,
    indent: (string, string) -> string)

  /** The key a gNMI enumeration name is looked up by: upper-cased, then every "-" turned into "_". */
  function NormalizedName(s: string): string
  {
    ReplaceChar(ToUpper(s), '-', '_')
  }

  /** The encoding flag as both commands read it. */
  function ParseEncoding(s: string): (r: Option<Encoding>)
    ensures r.Some? ==> EncodingName(r.value) == NormalizedName(s)
    ensures forall e :: EncodingName(e) == NormalizedName(s) ==> r == Some(e)
  {
    EncodingByName(NormalizedName(s))
  }

  /** The spelling a user typically gives: lower case with dashes. */
  function LowerDashed(s: string): string
  {
    if s == [] then [] else [LowerDashedChar(s[0])] + LowerDashed(s[1..])
  }

  function LowerDashedChar(c: char): char
  {
    if 'A' <= c <= 'Z' then (c as int + 32) as char else if c == '_' then '-' else c
  }

  /** Normalizing undoes the lower-case dashed spelling of an upper-case name. */
  lemma {:induction false} NormalizedLowerDashed(s: string)
    requires forall i :: 0 <= i < |s| ==> 'A' <= s[i] <= 'Z' || s[i] == '_'
    ensures NormalizedName(LowerDashed(s)) == s
  {
    if s != [] {
      NormalizedLowerDashed(s[1..]);
      var l := LowerDashed(s);
      assert l == [l[0]] + LowerDashed(s[1..]);
      assert NormalizedName(l) == NormalizedName([l[0]]) + NormalizedName(LowerDashed(s[1..])) by {
        ReplaceCharAppend(ToUpper([l[0]]), ToUpper(LowerDashed(s[1..])), '-', '_');
        assert ToUpper(l) == ToUpper([l[0]]) + ToUpper(LowerDashed(s[1..]));
      }
      assert NormalizedName([l[0]]) == [s[0]];
    }
  }

  /** Every encoding is accepted both under its protocol name and in lower case with dashes. */
  lemma ParseEncodingSpellings(e: Encoding)
    ensures ParseEncoding(EncodingName(e)) == Some(e)
    ensures ParseEncoding(LowerDashed(EncodingName(e))) == Some(e)
  {
    var n := EncodingName(e);
    assert forall i :: 0 <= i < |n| ==> 'A' <= n[i] <= 'Z' || n[i] == '_';
    assert ParseEncoding(n) == Some(e) by {
      ToUpperIdentity(n);
      ReplaceCharAbsent(n, '-', '_');
    }
    assert ParseEncoding(LowerDashed(n)) == Some(e) by {
      NormalizedLowerDashed(n);
    }
  }

  /** The names of a path's elements, in order. */
  function ElemNames(p: Path): seq<string>
  {
    seq(|p.elem|, i requires 0 <= i < |p.elem| => p.elem[i].name)
  }

  /** The key of an update's single value: the element names joined by "/". */
  function ValueKey(p: Path): string
  {
    Join(ElemNames(p), "/")
  }

  /** When no element name holds a "/", the key gives back the element names. */
  lemma ValueKeyNames(p: Path)
    requires |p.elem| >= 1
    requires forall i :: 0 <= i < |p.elem| ==> '/' !in p.elem[i].name
    ensures SplitChar(ValueKey(p), '/') == ElemNames(p)
  {
    SplitJoin(ElemNames(p), '/');
  }

  function Entry(env: Collaborators, u: Update): UpdateEntry
  {
    UpdateEntry(env.toXPath(Some(u.path)), map[ValueKey(u.path) := env.getValue(u.val)])
  }

  function Entries(env: Collaborators, us: seq<Update>): seq<UpdateEntry>
  {
    seq(|us|, i requires 0 <= i < |us| => Entry(env, us[i]))
  }

  /** The loop collecting the element names of an update's path. */
  method CollectElemNames(p: Path) returns (names: seq<string>)
    ensures |names| == |p.elem|
    ensures forall i :: 0 <= i < |names| ==> names[i] == p.elem[i].name
  {
    names := [];
    var k := 0;
    while k < |p.elem|
      invariant 0 <= k <= |p.elem|
      invariant |names| == k
      invariant forall i :: 0 <= i < k ==> names[i] == p.elem[i].name
    {
      names := names + [p.elem[k].name];
      k := k + 1;
    }
  }

  /**
   * The loop both commands run over a notification's updates: one entry per update, in
   * order, with its rendered path and a values map holding exactly one key.
   */
  method FormatUpdates(env: Collaborators, us: seq<Update>) returns (es: seq<UpdateEntry>)
    ensures |es| == |us|
    ensures forall i :: 0 <= i < |us| ==> es[i].path == env.toXPath(Some(us[i].path))
    ensures forall i :: 0 <= i < |us| ==> es[i].values.Keys == {ValueKey(us[i].path)}
    ensures forall i :: 0 <= i < |us| ==> es[i].values[ValueKey(us[i].path)] == env.getValue(us[i].val)
    ensures es == Entries(env, us)
  {
    es := [];
    var k := 0;
    while k < |us|
      invariant 0 <= k <= |us|
      invariant es == Entries(env, us[..k])
    {
      var names := CollectElemNames(us[k].path);
      assert names == ElemNames(us[k].path);
      var value := env.getValue(us[k].val);
      es := es + [UpdateEntry(env.toXPath(Some(us[k].path)), map[])];
      es := es[k := es[k].(values := es[k].values[Join(names, "/") := value])];
      assert us[..k + 1] == us[..k] + [us[k]];
      k := k + 1;
    }
    assert us[..k] == us;
  }
}
