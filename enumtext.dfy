/** The shape shared by the String methods of the model package's integer
    enumerations: a `switch` over the known values, and
    `fmt.Sprintf("Unknown <Type>: %d", v)` for every other value. */
module EnumText {
  import opened GoStd

  function Render(names: seq<string>, unknownPrefix: string, v: int): string
  {
    if 0 <= v < |names| then names[v] else unknownPrefix + IntToString(v)
  }

  predicate StartsWith(s: string, prefix: string)
  {
    |prefix| <= |s| && s[..|prefix|] == prefix
  }

  predicate Distinct(names: seq<string>)
  {
    forall i, j :: 0 <= i < j < |names| ==> names[i] != names[j]
  }

  /** No known name could be mistaken for the rendering of an unknown value. */
  predicate Unambiguous(names: seq<string>, unknownPrefix: string)
  {
    Distinct(names) && forall i :: 0 <= i < |names| ==> !StartsWith(names[i], unknownPrefix)
  }

  /** Under Unambiguous, different values never render alike. */
  lemma RenderInjective(names: seq<string>, unknownPrefix: string, a: int, b: int)
    requires Unambiguous(names, unknownPrefix)
    requires Render(names, unknownPrefix, a) == Render(names, unknownPrefix, b)
    ensures a == b
  {
    var ka, kb := 0 <= a < |names|, 0 <= b < |names|;
    if ka && kb {
      // Distinct(names) leaves only a == b
    } else if !ka && !kb {
      var r := Render(names, unknownPrefix, a);
      assert r[|unknownPrefix|..] == IntToString(a);
      assert r[|unknownPrefix|..] == IntToString(b);
      IntToStringInjective(a, b);
    } else if ka {
      assert StartsWith(names[a], unknownPrefix);
    } else {
      assert StartsWith(names[b], unknownPrefix);
    }
  }

  lemma RenderIsJsonPlain(names: seq<string>, unknownPrefix: string, v: int)
    requires forall i :: 0 <= i < |names| ==> JsonPlain(names[i])
    requires JsonPlain(unknownPrefix)
    ensures JsonPlain(Render(names, unknownPrefix, v))
  {
    if !(0 <= v < |names|) {
      IntToStringIsJsonPlain(v);
    }
  }
}
