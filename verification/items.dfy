/** A configuration item and the names derived from it: the environment
    variable, the Markdown anchor, the link label and the link. */
module ConfigItems {
  import opened Text

  /** One configuration item as the configuration package describes it.
      `argument` is the command-line spelling that the item's Argument()
      accessor produces; its derivation is outside this model. */
  datatype Item = Item(
    name: string,
    category: string,
    defaultValue: string,
    description: string,
    argument: string)

  const EnvPrefix: string := "FIREWORQ_"
  const AnchorPrefix: string := "env-"

  predicate IsNameChar(c: char) { IsLowerAscii(c) || IsDigit(c) || c == '_' }

  /** A snake_case item name: lower-case ASCII letters, digits and underscores. */
  predicate ValidName(name: string)
  {
    forall i :: 0 <= i < |name| ==> IsNameChar(name[i])
  }

  predicate IsAnchorChar(c: char) { IsLowerAscii(c) || IsDigit(c) || c == '-' }

  predicate IsEnvChar(c: char) { IsUpperAscii(c) || IsDigit(c) || c == '_' }

  /** `FIREWORQ_` followed by the upper-cased name. */
  function EnvironmentVariable(item: Item): (e: string)
    ensures |e| == |EnvPrefix| + |item.name|
    ensures e[..|EnvPrefix|] == EnvPrefix
    ensures forall i :: 0 <= i < |item.name| && !IsLowerAscii(item.name[i]) ==>
      e[|EnvPrefix| + i] == item.name[i]
    ensures forall i :: 0 <= i < |item.name| && IsLowerAscii(item.name[i]) ==>
      IsUpperAscii(e[|EnvPrefix| + i]) && e[|EnvPrefix| + i] as int + 32 == item.name[i] as int
  {
    EnvPrefix + ToUpper(item.name)
  }

  /** `env-` followed by the name with every `_` turned into `-`. */
  function AnchorName(item: Item): (a: string)
    ensures |a| == |AnchorPrefix| + |item.name|
    ensures a[..|AnchorPrefix|] == AnchorPrefix
    ensures '_' !in a
    ensures forall i :: 0 <= i < |item.name| && item.name[i] != '_' ==>
      a[|AnchorPrefix| + i] == item.name[i]
    ensures forall i :: 0 <= i < |item.name| && item.name[i] == '_' ==>
      a[|AnchorPrefix| + i] == '-'
  {
    var r := ReplaceAll(item.name, '_', '-');
    assert '_' !in r by {
      forall i | 0 <= i < |r| ensures r[i] != '_' {
        if item.name[i] != '_' { assert r[i] == item.name[i]; }
      }
    }
    var a := AnchorPrefix + r;
    a
  }

  /** The backtick-quoted environment variable and argument, joined by ", ". */
  function LinkLabel(item: Item): (l: string)
    ensures |l| == |EnvPrefix| + |item.name| + |item.argument| + 6
    ensures l[0] == '`' && l[|l| - 1] == '`'
  {
    "`" + EnvironmentVariable(item) + "`, `" + item.argument + "`"
  }

  /** The Markdown inline link from a table-of-contents entry to the item's section. */
  function Link(item: Item): (k: string)
    ensures |k| == |LinkLabel(item)| + |AnchorName(item)| + 5
    ensures k[0] == '[' && k[|k| - 1] == ')'
    ensures k[|k| - |AnchorName(item)| - 2] == '#'
  {
    "[" + LinkLabel(item) + "](#" + AnchorName(item) + ")"
  }

  /** The text between `[` and `](` of an inline link is its label. */
  lemma BracketText(shown: string, anchor: string)
    ensures |shown| + 1 < |"[" + shown + "](#" + anchor + ")"|
    ensures ("[" + shown + "](#" + anchor + ")")[1..1 + |shown|] == shown
  {
    var link := "[" + shown + "](#" + anchor + ")";
    assert link == ("[" + shown) + ("](#" + anchor + ")");
    assert ("[" + shown)[1..] == shown;
  }

  /** The visible text of an item's link is its label. */
  lemma LinkShowsLabel(item: Item)
    ensures Link(item)[1..1 + |LinkLabel(item)|] == LinkLabel(item)
  {
    BracketText(LinkLabel(item), AnchorName(item));
  }

  /** Reads a link label back into its two backtick-quoted parts. */
  function ParseLabel(shown: string): Option<(string, string)>
  {
    match SplitAtFirst(shown, ',')
    case None => None
    case Some(parts) =>
      var (env, arg) := parts;
      if |env| >= 2 && env[0] == '`' && env[|env| - 1] == '`'
         && |arg| >= 3 && arg[..2] == " `" && arg[|arg| - 1] == '`'
      then Some((env[1..|env| - 1], arg[2..|arg| - 1]))
      else None
  }

  /** Reads the fragment (the text after `#`) out of a link that ends in `)`. */
  function LinkFragment(link: string): Option<string>
  {
    if |link| >= 1 && link[|link| - 1] == ')' then AfterLast(link[..|link| - 1], '#')
    else None
  }

  lemma EnvironmentVariableIsUpperSnake(item: Item)
    requires ValidName(item.name)
    ensures forall i :: 0 <= i < |EnvironmentVariable(item)| ==> IsEnvChar(EnvironmentVariable(item)[i])
  {
    var e := EnvironmentVariable(item);
    forall i | 0 <= i < |e| ensures IsEnvChar(e[i]) {
      if i < |EnvPrefix| {
        assert e[i] == e[..|EnvPrefix|][i];
      } else {
        assert IsNameChar(item.name[i - |EnvPrefix|]);
      }
    }
  }

  /** Distinct valid names give distinct anchors: `-` never occurs in a valid name. */
  lemma AnchorNameInjective(x: Item, y: Item)
    requires ValidName(x.name) && ValidName(y.name)
    requires AnchorName(x) == AnchorName(y)
    ensures x.name == y.name
  {
    var ax, ay := AnchorName(x), AnchorName(y);
    forall i | 0 <= i < |x.name| ensures x.name[i] == y.name[i] {
      assert ax[|AnchorPrefix| + i] == ay[|AnchorPrefix| + i];
      assert IsNameChar(x.name[i]) && IsNameChar(y.name[i]);
    }
  }

  /** Distinct valid names give distinct environment variables. */
  lemma EnvironmentVariableInjective(x: Item, y: Item)
    requires ValidName(x.name) && ValidName(y.name)
    requires EnvironmentVariable(x) == EnvironmentVariable(y)
    ensures x.name == y.name
  {
    var ex, ey := EnvironmentVariable(x), EnvironmentVariable(y);
    assert |x.name| == |y.name|;
    forall i | 0 <= i < |x.name| ensures x.name[i] == y.name[i] {
      var a, b, u := x.name[i], y.name[i], ex[|EnvPrefix| + i];
      assert u == ey[|EnvPrefix| + i];
      assert IsNameChar(a) && IsNameChar(b);
      if IsLowerAscii(a) {
        assert IsUpperAscii(u) && u as int + 32 == a as int;
        assert IsLowerAscii(b);
      } else {
        assert u == a;
        assert !IsLowerAscii(b);
      }
    }
  }

  /** The label reads back as the environment variable and the argument. */
  lemma LinkLabelReadsBack(item: Item)
    requires ValidName(item.name)
    ensures ParseLabel(LinkLabel(item)) == Some((EnvironmentVariable(item), item.argument))
  {
    var env, arg := "`" + EnvironmentVariable(item) + "`", " `" + item.argument + "`";
    EnvironmentVariableIsUpperSnake(item);
    assert ',' !in env by {
      forall i | 0 <= i < |env| ensures env[i] != ',' {
        if 0 < i < |env| - 1 {
          assert env[i] == EnvironmentVariable(item)[i - 1];
        }
      }
    }
    assert LinkLabel(item) == env + [','] + arg;
    SplitAtFirstOf(env, ',', arg);
    assert arg[..2] == " `";
    assert env[1..|env| - 1] == EnvironmentVariable(item);
    assert arg[2..|arg| - 1] == item.argument;
  }

  /** With a valid name, an anchor is made of lower-case letters, digits and `-`. */
  lemma AnchorNameChars(item: Item)
    requires ValidName(item.name)
    ensures forall i :: 0 <= i < |AnchorName(item)| ==> IsAnchorChar(AnchorName(item)[i])
  {
    var a := AnchorName(item);
    forall i | 0 <= i < |a| ensures IsAnchorChar(a[i]) {
      if i < |AnchorPrefix| {
        assert a[i] == a[..|AnchorPrefix|][i];
      } else {
        assert IsNameChar(item.name[i - |AnchorPrefix|]);
      }
    }
  }

  /** The fragment of an item's link is exactly its anchor name. */
  lemma LinkTargetIsAnchor(item: Item)
    requires ValidName(item.name)
    ensures LinkFragment(Link(item)) == Some(AnchorName(item))
  {
    var anchor := AnchorName(item);
    var front := "[" + LinkLabel(item) + "](";
    assert '#' !in anchor by {
      AnchorNameChars(item);
      forall i | 0 <= i < |anchor| ensures anchor[i] != '#' {
        assert IsAnchorChar(anchor[i]);
      }
    }
    var link := Link(item);
    assert link[..|link| - 1] == front + ['#'] + anchor by {
      assert link == front + ['#'] + anchor + [')'];
    }
    AfterLastOf(front, '#', anchor);
  }
}
