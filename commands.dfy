/**
 * The command dispatch of the `message_create` handler over the trimmed body,
 * and the alias table `MODELOS_DISPONIBLES`.
 */
module Commands {
  import opened Wrappers
  import opened JsText

  /** The command a trimmed body selects, with the argument its branch computes from the rest. */
  datatype Command =
    | Info                 // exactly "!info"
    | Tokens(n: Option<int>)  // "!tokens " and the `parseInt` of the trimmed rest
    | Modelo(alias: string)   // "!modelo " and the trimmed, lower-cased rest
    | Reset                // exactly "!reset"
    | Bot(query: string)   // "!bot" in any case, `query` the trimmed remainder
    | NoCommand

  /** The five patterns, tested in this order; the first that matches wins. */
  function Classify(m: string): Command {
    if m == "!info" then Info
    else if StartsWith(m, "!tokens ") then Tokens(ParseInt(Trim(m[8..])))
    else if StartsWith(m, "!modelo ") then Modelo(ToLower(Trim(m[8..])))
    else if m == "!reset" then Reset
    else if StartsWith(ToLower(m), "!bot") then Bot(Trim(m[4..]))
    else NoCommand
  }

  /** `mensaje.toLowerCase().startsWith('!bot')`. */
  predicate IsBotPrefix(m: string) {
    StartsWith(ToLower(m), "!bot")
  }

  /**
   * No two of the five patterns can match the same text, so the order in which
   * they are tested decides nothing: each command is selected exactly when its
   * own pattern matches.
   */
  lemma ClassifyExactly(m: string)
    ensures Classify(m) == Info <==> m == "!info"
    ensures Classify(m).Tokens? <==> StartsWith(m, "!tokens ")
    ensures Classify(m).Modelo? <==> StartsWith(m, "!modelo ")
    ensures Classify(m) == Reset <==> m == "!reset"
    ensures Classify(m).Bot? <==> IsBotPrefix(m)
    ensures Classify(m) == NoCommand <==>
              m != "!info" && !StartsWith(m, "!tokens ") && !StartsWith(m, "!modelo ")
              && m != "!reset" && !IsBotPrefix(m)
  {
    if IsBotPrefix(m) {
      assert ToLower(m)[1] == LowerChar(m[1]) == 'b';
      assert m[1] == 'b' || m[1] == 'B';
      assert m != "!info" && m != "!reset";
      assert !StartsWith(m, "!tokens ") && !StartsWith(m, "!modelo ") by {
        if |m| >= 8 {
          assert m[..8][1] == m[1];
        }
      }
    }
    if StartsWith(m, "!tokens ") || StartsWith(m, "!modelo ") {
      assert |m| >= 8;
      assert m != "!info" && m != "!reset";
    }
  }

  /** What each command reads: the text after the eight characters of its prefix, the query after four. */
  lemma ClassifyArguments(m: string)
    ensures Classify(m).Tokens? ==> |m| >= 8 && Classify(m).n == ParseInt(Trim(m[8..]))
    ensures Classify(m).Modelo? ==> |m| >= 8 && Classify(m).alias == ToLower(Trim(m[8..]))
    ensures Classify(m).Bot? ==> |m| >= 4 && Classify(m).query == Trim(m[4..])
  {
    ClassifyExactly(m);
  }

  /**
   * The `!bot` test ignores case: a body is a query exactly when it starts
   * with '!' and then b, o, t, each in either case ("!BOT hola" and
   * "!Bot hola" are queries too, "! bot" is not).
   */
  lemma BotPrefixIgnoresCase(m: string)
    ensures IsBotPrefix(m) <==>
              && |m| >= 4 && m[0] == '!'
              && (m[1] == 'b' || m[1] == 'B') && (m[2] == 'o' || m[2] == 'O') && (m[3] == 't' || m[3] == 'T')
  {
    var l := ToLower(m);
    if |m| >= 4 {
      assert l[..4] == [LowerChar(m[0]), LowerChar(m[1]), LowerChar(m[2]), LowerChar(m[3])];
    }
  }

  // ---- the alias table ----

  /** `MODELOS_DISPONIBLES`, in the order of its keys. */
  const Models: seq<(string, string)> := [
    ("3-pro", "gemini-3-pro-preview"),
    ("2.5-pro", "gemini-2.5-pro"),
    ("2.5-flash", "gemini-2.5-flash"),
    ("2.5-lite", "gemini-2.5-flash-lite"),
    ("2.0-flash", "gemini-2.0-flash"),
    ("2.0-lite", "gemini-2.0-flash-lite")
  ]

  /**
   * `Object.keys(MODELOS_DISPONIBLES)`: the aliases, in insertion order. They
   * are exactly the texts the lookup accepts, each listed once.
   */
  function AliasKeys(): (keys: seq<string>)
    ensures |keys| == |Models|
    ensures forall i :: 0 <= i < |Models| ==> keys[i] == Models[i].0
    ensures forall a :: a in keys <==> LookupAlias(a).Some?
    ensures forall i, j :: 0 <= i < j < |keys| ==> keys[i] != keys[j]
  {
    seq(|Models|, i requires 0 <= i < |Models| => Models[i].0)
  }

  /** The first entry of `table` whose key is `alias`. */
  function Find(table: seq<(string, string)>, alias: string): (r: Option<string>)
    ensures r.Some? <==> exists i :: 0 <= i < |table| && table[i].0 == alias
    ensures r.Some? ==> exists i :: 0 <= i < |table| && table[i] == (alias, r.value)
  {
    if table == [] then None
    else if table[0].0 == alias then Some(table[0].1)
    else
      var r := Find(table[1..], alias);
      assert forall i :: 1 <= i < |table| ==> table[i] == table[1..][i - 1];
      r
  }

  /** `MODELOS_DISPONIBLES[alias]`, for the table's own keys. */
  function LookupAlias(alias: string): Option<string> {
    Find(Models, alias)
  }

  /** The six aliases are distinct, so every table entry is found under its key. */
  lemma LookupAliasTable(i: nat)
    requires i < |Models|
    ensures LookupAlias(Models[i].0) == Some(Models[i].1)
  {
  }

  /** The six technical names are distinct: no two aliases select the same model. */
  lemma LookupAliasInjective(a: string, b: string)
    requires LookupAlias(a).Some? && LookupAlias(a) == LookupAlias(b)
    ensures a == b
  {
    var v := LookupAlias(a).value;
    var i :| 0 <= i < |Models| && Models[i] == (a, v);
    var j :| 0 <= j < |Models| && Models[j] == (b, v);
    ModelNamesDistinct(i, j);
  }

  lemma ModelNamesDistinct(i: nat, j: nat)
    requires i < |Models| && j < |Models| && Models[i].1 == Models[j].1
    ensures i == j
  {
  }
}
