/**
 * The Cloud Foundry application manifests written next to the bundled sample
 * apps (main.go, goManifest and winManifest). The app name is spliced into a
 * fixed template, and a buildpack stanza is appended exactly when buildpack
 * detection is switched off.
 */
module Manifest {
  import opened Strings

  const GoHead := "applications:\n- name: "
  const GoResources := "  memory: 64M\n  disk: 16M\n  env:\n    "
  const GoPackageKey := "GOPACKAGENAME: github.com/cloudfoundry/uptimer/"
  const GoBody := GoResources + GoPackageKey
  /** Two YAML lines: the key, then a list item naming the Go buildpack. */
  const GoBuildpacks := "  buildpacks:\n  - go_buildpack\n"

  const WinHead := "applications:\n- name: "
  const WinBody := "  memory: 1024m\n  stack: windows\n"
  /** One line, exactly as main.go writes it: no newline after the key. */
  const WinBuildpacks := "  buildpacks:  - hwc_buildpack\n"

  /** The manifest of a Go sample app called appName. */
  function GoManifest(appName: string, useBuildpackDetection: bool): (m: string)
    ensures HasPrefix(m, GoHead + appName + "\n")
    ensures |m| == |GoHead| + |GoBody| + 2 + 2 * |appName|
                   + (if useBuildpackDetection then 0 else |GoBuildpacks|)
  {
    var nameLine := GoHead + appName + "\n";
    var rest := GoBody + appName + "\n" + (if useBuildpackDetection then "" else GoBuildpacks);
    assert (nameLine + rest)[..|nameLine|] == nameLine;
    nameLine + rest
  }

  /** The manifest of the Windows (HWC) sample app called appName. */
  function WinManifest(appName: string, useBuildpackDetection: bool): (m: string)
    ensures HasPrefix(m, WinHead + appName + "\n")
    ensures |m| == |WinHead| + |WinBody| + 1 + |appName|
                   + (if useBuildpackDetection then 0 else |WinBuildpacks|)
  {
    var nameLine := WinHead + appName + "\n";
    var rest := WinBody + (if useBuildpackDetection then "" else WinBuildpacks);
    assert (nameLine + rest)[..|nameLine|] == nameLine;
    nameLine + rest
  }

  /** With detection off, the Go manifest is the detecting one plus the buildpack stanza. */
  lemma GoManifestBuildpackSuffix(appName: string)
    ensures GoManifest(appName, false) == GoManifest(appName, true) + GoBuildpacks
  {
  }

  /** With detection off, the Windows manifest is the detecting one plus the buildpack line. */
  lemma WinManifestBuildpackSuffix(appName: string)
    ensures WinManifest(appName, false) == WinManifest(appName, true) + WinBuildpacks
  {
  }

  /** The Go package path names the app: the name appears a second time, after GOPACKAGENAME. */
  lemma GoManifestNamesPackage(appName: string, useBuildpackDetection: bool)
    ensures Contains(GoManifest(appName, useBuildpackDetection), GoPackageKey + appName + "\n")
  {
    var key := GoPackageKey + appName + "\n";
    var before := GoHead + appName + "\n" + GoResources;
    var after := if useBuildpackDetection then "" else GoBuildpacks;
    calc {
      GoManifest(appName, useBuildpackDetection);
      (GoHead + appName + "\n") + (GoResources + GoPackageKey + appName + "\n" + after);
      { assert GoResources + GoPackageKey + appName + "\n" + after == GoResources + key + after; }
      (GoHead + appName + "\n") + (GoResources + key + after);
      before + key + after;
    }
    ContainsInfix(before, key, after);
  }

  /** With detection off, the Go manifest names the Go buildpack. */
  lemma GoManifestNamesBuildpack(appName: string)
    ensures Contains(GoManifest(appName, false), "go_buildpack")
  {
    var before := GoManifest(appName, true) + "  buildpacks:\n  - ";
    assert GoManifest(appName, false) == before + "go_buildpack" + "\n";
    ContainsInfix(before, "go_buildpack", "\n");
  }

  /** With detection off, the Windows manifest names the HWC buildpack. */
  lemma WinManifestNamesBuildpack(appName: string)
    ensures Contains(WinManifest(appName, false), "hwc_buildpack")
  {
    var before := WinManifest(appName, true) + "  buildpacks:  - ";
    assert WinManifest(appName, false) == before + "hwc_buildpack" + "\n";
    ContainsInfix(before, "hwc_buildpack", "\n");
  }

  /** The number of lines a manifest has: its newline characters. */
  function LineCount(s: string): (n: nat)
    ensures n <= |s|
  {
    if s == [] then 0 else (if s[0] == '\n' then 1 else 0) + LineCount(s[1..])
  }

  /** Line counts add up over concatenation. */
  lemma {:induction false} LineCountAppend(a: string, b: string)
    ensures LineCount(a + b) == LineCount(a) + LineCount(b)
    decreases |a|
  {
    if a == [] {
      assert a + b == b;
    } else {
      assert (a + b)[1..] == a[1..] + b;
      LineCountAppend(a[1..], b);
    }
  }

  /** A string with no newline character is a single unfinished line. */
  lemma {:induction false} LineCountNone(s: string)
    requires '\n' !in s
    ensures LineCount(s) == 0
    decreases |s|
  {
    if s != [] {
      assert s[0] in s;
      assert forall c :: c in s[1..] ==> c in s;
      LineCountNone(s[1..]);
    }
  }

  /** Appending lines a and b, neither holding a newline, adds two lines. */
  lemma LineCountTwoMore(m: string, a: string, b: string)
    requires '\n' !in a && '\n' !in b
    ensures LineCount(m + (a + "\n" + b + "\n")) == LineCount(m) + 2
  {
    LineCountNone(a);
    LineCountNone(b);
    LineCountAppend(m, a + "\n" + b + "\n");
    LineCountAppend(a + "\n", b + "\n");
    LineCountAppend(a, "\n");
    LineCountAppend(b, "\n");
    assert a + "\n" + b + "\n" == (a + "\n") + (b + "\n");
  }

  /** Appending line a, which holds no newline, adds one line. */
  lemma LineCountOneMore(m: string, a: string)
    requires '\n' !in a
    ensures LineCount(m + (a + "\n")) == LineCount(m) + 1
  {
    LineCountNone(a);
    LineCountAppend(m, a + "\n");
    LineCountAppend(a, "\n");
  }

  /** Switching detection off adds two lines to the Go manifest: the key and its list item. */
  lemma GoBuildpackStanzaLines(appName: string)
    ensures LineCount(GoManifest(appName, false)) == LineCount(GoManifest(appName, true)) + 2
  {
    GoManifestBuildpackSuffix(appName);
    assert GoBuildpacks == "  buildpacks:" + "\n" + "  - go_buildpack" + "\n";
    LineCountTwoMore(GoManifest(appName, true), "  buildpacks:", "  - go_buildpack");
  }

  /** Switching detection off adds only one line to the Windows manifest. */
  lemma WinBuildpackStanzaLines(appName: string)
    ensures LineCount(WinManifest(appName, false)) == LineCount(WinManifest(appName, true)) + 1
  {
    WinManifestBuildpackSuffix(appName);
    assert WinBuildpacks == "  buildpacks:  - hwc_buildpack" + "\n";
    LineCountOneMore(WinManifest(appName, true), "  buildpacks:  - hwc_buildpack");
  }

  /** Different names or detection modes never give the same Go manifest. */
  lemma GoManifestInjective(n1: string, d1: bool, n2: string, d2: bool)
    requires GoManifest(n1, d1) == GoManifest(n2, d2)
    ensures n1 == n2 && d1 == d2
  {
    var m := GoManifest(n1, d1);
    // |GoBuildpacks| is odd, so the parity of |m| fixes the mode
    assert |GoBuildpacks| == 31;
    assert d1 == d2;
    assert |n1| == |n2|;
    assert n1 == m[|GoHead|..|GoHead| + |n1|];
    assert n2 == m[|GoHead|..|GoHead| + |n2|];
  }

  /** Different names or detection modes never give the same Windows manifest. */
  lemma WinManifestInjective(n1: string, d1: bool, n2: string, d2: bool)
    requires WinManifest(n1, d1) == WinManifest(n2, d2)
    ensures n1 == n2 && d1 == d2
  {
    var m := WinManifest(n1, d1);
    // one mode ends in "windows\n", the other in "hwc_buildpack\n"
    assert m[|m| - 2] == (if d1 then 's' else 'k');
    assert m[|m| - 2] == (if d2 then 's' else 'k');
    assert |n1| == |n2|;
    assert n1 == m[|WinHead|..|WinHead| + |n1|];
    assert n2 == m[|WinHead|..|WinHead| + |n2|];
  }
}
