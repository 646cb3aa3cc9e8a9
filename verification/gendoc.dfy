/** The command-line entry point: the argument check and the dispatch on the
    document type. Output streams and the exit status are returned. */
module Gendoc {
  import Text
  import Buckets
  import opened ConfigItems
  import opened Render

  /** What one run writes to standard output and standard error, and its
      exit status. */
  datatype Outcome = Outcome(stdout: seq<string>, stderr: seq<string>, exitCode: int)

  const Usage: string := "Usage: gendoc <type>"

  /** main. `args` is the whole argument vector, program name first;
      `items` is the list the configuration package describes. */
  method Run(args: seq<string>, items: seq<Item>) returns (r: Outcome)
    ensures |args| <= 1 ==> r == Outcome([], [Usage], 1)
    ensures |args| > 1 && args[1] == "config" ==> r == Outcome(Document(items), [], 0)
    ensures |args| > 1 && args[1] != "config" ==> r == Outcome([], [], 0)
  {
    if |args| <= 1 {
      return Outcome([], [Usage], 1);
    }
    var stdout := [];
    if args[1] == "config" {
      stdout := PrintConfigDoc(items);
    }
    r := Outcome(stdout, [], 0);
  }

  /** The `log_level` item of the end-to-end scenario. */
  predicate IsLogLevel(x: Item)
  {
    && x.name == "log_level" && x.category == "common" && x.defaultValue == "info"
    && x.description == "Sets the log level." && x.argument == "--log-level"
  }

  lemma LogLevelUpperCased()
    ensures Text.ToUpper("log_level") == "LOG_LEVEL"
  {
    var upper := Text.ToUpper("log_level");
    forall i | 0 <= i < 9 ensures upper[i] == "LOG_LEVEL"[i] {
      assert upper[i] == Text.UpperAscii("log_level"[i]);
    }
  }

  lemma LogLevelEnvironmentVariable(x: Item)
    requires IsLogLevel(x)
    ensures EnvironmentVariable(x) == "FIREWORQ_LOG_LEVEL"
  {
    assert EnvPrefix + "LOG_LEVEL" == "FIREWORQ_LOG_LEVEL";
    LogLevelUpperCased();
    assert EnvironmentVariable(x) == EnvPrefix + "LOG_LEVEL";
  }

  lemma LogLevelDashed()
    ensures Text.ReplaceAll("log_level", '_', '-') == "log-level"
  {
    assert "log" + ['_'] + "level" == "log_level";
    Text.ReplaceSingle("log", '_', '-', "level");
    assert "log" + ['-'] + "level" == "log-level";
  }

  lemma LogLevelAnchor(x: Item)
    requires IsLogLevel(x)
    ensures AnchorName(x) == "env-log-level"
  {
    assert AnchorPrefix + "log-level" == "env-log-level";
    LogLevelDashed();
    assert AnchorName(x) == AnchorPrefix + "log-level";
  }

  lemma LogLevelBuckets(x: Item)
    requires IsLogLevel(x)
    ensures Document([x]) == Layout([x], [])
  {
    Buckets.FilterSingle(x, "common");
    Buckets.FilterSingle(x, "manual");
    assert x.category != "manual" by {
      assert x.category[0] == 'c' != "manual"[0];
    }
  }

  /** The label format applied to `FIREWORQ_LOG_LEVEL` and `--log-level`,
      one quoted part at a time. */
  lemma LogLevelLabelText()
    ensures "`" + "FIREWORQ_LOG_LEVEL" + "`, `" + "--log-level" + "`"
      == "`FIREWORQ_LOG_LEVEL`, `--log-level`"
  {
  }

  /** The `log_level` item's link label, spelled out. */
  lemma LogLevelLabel(x: Item)
    requires IsLogLevel(x)
    ensures LinkLabel(x) == "`FIREWORQ_LOG_LEVEL`, `--log-level`"
  {
    LogLevelEnvironmentVariable(x);
    LogLevelLabelText();
  }

  /** The whole document for the `log_level` item alone: its link (to
      `#env-log-level`, with the label spelled out) under the common
      bullet, and its heading, Default line and description in the common
      section; the manual section stays empty. */
  lemma LogLevelDocument(x: Item)
    requires IsLogLevel(x)
    ensures AnchorName(x) == "env-log-level"
    ensures EnvironmentVariable(x) == "FIREWORQ_LOG_LEVEL"
    ensures LinkLabel(x) == "`FIREWORQ_LOG_LEVEL`, `--log-level`"
    ensures Document([x]) ==
      [Header, TocCommonBullet, "  - " + Link(x), TocManualBullet, TocDockerBullets,
       CommonSectionHeading, Heading(x), DefaultLine("info"), "Sets the log level.",
       ManualSectionHeading, DockerSection, LinkDefinitions]
  {
    LogLevelAnchor(x);
    LogLevelEnvironmentVariable(x);
    LogLevelLabel(x);
    LogLevelBuckets(x);
    var block := [Heading(x), DefaultLine("info"), "Sets the log level."];
    assert Descriptions([x]) == block by {
      assert [x][..0] == [];
      assert x.defaultValue != "";
    }
    assert TocLines([x]) == [TocLine(x)];
    assert TocLines([]) == [];
    assert Document([x]) == Page([TocLine(x)], [], block, []);
    SingleItemPage(TocLine(x), block[0], block[1], block[2]);
  }

  /** The page when the common bucket holds one item with a Default line
      and the manual bucket is empty. */
  lemma SingleItemPage(toc: string, heading: string, default: string, description: string)
    ensures Page([toc], [], [heading, default, description], []) ==
      [Header, TocCommonBullet, toc, TocManualBullet, TocDockerBullets,
       CommonSectionHeading, heading, default, description,
       ManualSectionHeading, DockerSection, LinkDefinitions]
  {
  }
}
