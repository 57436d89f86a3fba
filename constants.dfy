/** The static tables: the fallback license families and recipe fields
    (used when conda-build cannot be imported), the object-file magic
    numbers, the PE machine codes and the conda-forge template comments. */
module Constants {
  import opened Base
  import opened Text

  const LicenseFamilies: seq<string> :=
    ["AGPL", "GPL2", "GPL3", "LGPL", "BSD", "MIT", "Apache",
     "PSF", "Public-Domain", "Proprietary", "Other"]

  /** The recipe sections, in the order the table lists them. */
  const FieldSections: seq<string> :=
    ["package", "source", "build", "requirements", "outputs", "app", "test", "about", "extra"]

  /** The keys allowed in each section (`FIELDS[section]`). */
  function FieldKeys(section: string): set<string> {
    match section
    case "package" => {"name", "version"}
    case "source" =>
      {"fn", "url", "md5", "sha1", "sha256", "git_url", "git_tag", "git_branch", "git_rev",
       "patches", "hg_url", "hg_tag", "path"}
    case "build" =>
      {"features", "track_features", "skip", "number", "entry_points", "osx_is_app", "noarch",
       "preserve_egg_dir", "win_has_prefix", "no_link", "ignore_prefix_files", "msvc_compiler",
       "skip_compile_pyc", "detect_binary_files_with_prefix", "script", "always_include_files",
       "binary_relocation", "binary_has_prefix_files", "noarch_python", "run_exports"}
    case "requirements" => {"build", "run", "preferred_env", "host", "preferred_env_executable_paths"}
    case "outputs" => {"name", "build", "about", "test", "version", "script", "requirements", "run_exports"}
    case "app" => {"entry", "icon", "summary", "type", "cli_opts"}
    case "test" => {"requires", "commands", "files", "source_files", "imports"}
    case "about" =>
      {"license", "license_url", "license_family", "license_file", "summary", "description",
       "home", "doc_url", "doc_source_url", "dev_url"}
    case "extra" => {"recipe-maintainers", "final", "parent_recipe"}
    case _ => {}
  }

  /** The four-byte magic numbers of object files and what they denote. */
  const MagicHeaders: seq<(seq<byte>, string)> := [
    ([0xca, 0xfe, 0xba, 0xbe], "MachO-universal"),
    ([0xce, 0xfa, 0xed, 0xfe], "MachO-i386"),
    ([0xcf, 0xfa, 0xed, 0xfe], "MachO-x86_64"),
    ([0xfe, 0xed, 0xfa, 0xce], "MachO-ppc"),
    ([0xfe, 0xed, 0xfa, 0xcf], "MachO-ppc64"),
    ([0x4d, 0x5a, 0x90, 0x00], "DLL"),
    ([0x7f, 0x45, 0x4c, 0x46], "ELF")
  ]

  /** The PE machine codes and their names, ordered by code. */
  const DllTypes: seq<(int, string)> := [
    (0x0, "UNKNOWN"), (0x14c, "I386"), (0x166, "R4000"), (0x169, "WCEMIPSV2"),
    (0x1a2, "SH3"), (0x1a3, "SH3DSP"), (0x1a6, "SH4"), (0x1a8, "SH5"),
    (0x1c0, "ARM"), (0x1c2, "THUMB"), (0x1d3, "AM33"), (0x1f0, "POWERPC"),
    (0x1f1, "POWERPCFP"), (0x200, "IA64"), (0x266, "MIPS16"), (0x366, "MIPSFPU"),
    (0x466, "MIPSFPU16"), (0xebc, "EBC"), (0x8664, "AMD64"), (0x9041, "M32R")
  ]

  /** `CONDA_FORGE_COMMENTS.splitlines()`: the text opens with a newline,
      so its first line is empty. Each other line is written as its leading
      `#` followed by the rest of the line. */
  const CondaForgeCommentLines: seq<string> := [
    "",
    "#" + " Note: there are many handy hints in comments in this example -- remove them when you've finalized your recipe",
    "#" + " Jinja variables help maintain the recipe as you'll update the version only here.",
    "#" + " sha256 is the prefered checksum -- you can get it for a file with:",
    "#" + "  `openssl sha256 <file name>`.",
    "#" + " You may need the openssl package, available on conda-forge",
    "#" + "  `conda install openssl -c conda-forge``",
    "#" + " If the installation is complex, or different between Unix and Windows, use separate bld.bat and build.sh files instead of this key.",
    "#" + " By default, the package will be built for the Python versions supported by conda-forge and for all major OSs.",
    "#" + " Add the line \"skip: True  # [py<35]\" (for example) to limit to Python 3.5 and newer, or \"skip: True  # [not win]\" to limit to Windows.",
    "#" + " When setuptools is available add the `--single-version-externally-managed --record record.txt` above.",
    "#" + " if your project compiles code (such as a C extension) then add `toolchain` as a build requirement.",
    "#" + " Some package might need a `test/commands` key to check CLI.",
    "#" + " List all the packages/modules that `run_test.py` imports.",
    "#" + " Remember to specify the license variants for BSD, Apache, GPL, and LGLP.",
    "#" + " Prefer the short version, e.g: GPL-2.0 instead of GNU General Public License version 2.0",
    "#" + " See https://opensource.org/licenses/alphabetical",
    "#" + " The license_family, i.e. \"BSD\" if license is \"BSD-3-Clause\". (optional)",
    "#" + " It is strongly encouraged to include a license file in the package,",
    "#" + " (even if the license doesn't require it) using the license_file entry.",
    "#" + " See http://conda.pydata.org/docs/building/meta-yaml.html#license-file",
    "#" + " The remaining entries in this section are optional, but recommended",
    "#" + " GitHub IDs for maintainers of the recipe.",
    "#" + " Always check with the people listed below if they are OK becoming maintainers of the recipe. (There will be spam!)"
  ]

  /** `FIELDS.get` / `section in FIELDS` */
  predicate IsSection(s: string) { s in FieldSections }

  /** `MAGIC_HEADERS.get(head)` */
  function MagicLookup(head: seq<byte>): (r: Option<string>)
    ensures r.Some? <==> exists i | 0 <= i < |MagicHeaders| :: MagicHeaders[i].0 == head
    ensures r.Some? ==> exists i | 0 <= i < |MagicHeaders| :: MagicHeaders[i] == (head, r.value)
  {
    LookupIn(MagicHeaders, head)
  }

  /** `DLL_TYPES.get(code)` */
  function DllLookup(code: int): (r: Option<string>)
    ensures r.Some? <==> exists i | 0 <= i < |DllTypes| :: DllTypes[i].0 == code
    ensures r.Some? ==> exists i | 0 <= i < |DllTypes| :: DllTypes[i] == (code, r.value)
  {
    LookupIn(DllTypes, code)
  }

  /** The value of the first pair whose key is `k`. */
  function LookupIn<K(==), V>(table: seq<(K, V)>, k: K): (r: Option<V>)
    ensures r.Some? <==> exists i | 0 <= i < |table| :: table[i].0 == k
    ensures r.Some? ==> exists i | 0 <= i < |table| :: table[i] == (k, r.value)
  {
    if |table| == 0 then None
    else if table[0].0 == k then Some(table[0].1)
    else
      var r := LookupIn(table[1..], k);
      assert r.Some? ==> table[1..][0].0 == k || exists i | 1 <= i < |table| :: table[i].0 == k;
      r
  }

  /** Every key of a table is different from every other. */
  predicate DistinctKeys<K(==), V>(table: seq<(K, V)>) {
    forall i, j | 0 <= i < j < |table| :: table[i].0 != table[j].0
  }

  lemma LicenseFamiliesShape()
    ensures |LicenseFamilies| == 11 && LicenseFamilies[10] == "Other"
    ensures forall i, j | 0 <= i < j < |LicenseFamilies| :: LicenseFamilies[i] != LicenseFamilies[j]
  {
  }

  lemma FieldsShape()
    ensures |FieldSections| == 9
    ensures forall i, j | 0 <= i < j < |FieldSections| :: FieldSections[i] != FieldSections[j]
    ensures IsSection("extra") && IsSection("outputs")
    ensures forall s :: !IsSection(s) ==> FieldKeys(s) == {}
  {
  }

  lemma MagicHeadersShape()
    ensures |MagicHeaders| == 7
    ensures forall i | 0 <= i < |MagicHeaders| :: |MagicHeaders[i].0| == 4
  {
  }

  /** The DOS header `MZ\x90\0` denotes a DLL. */
  lemma MagicDll()
    ensures MagicLookup([0x4d, 0x5a, 0x90, 0x00]) == Some("DLL")
  {
    LookupFirstAt(MagicHeaders, 5);
  }

  /** The ELF header `\x7fELF` denotes an ELF image. */
  lemma MagicElf()
    ensures MagicLookup([0x7f, 0x45, 0x4c, 0x46]) == Some("ELF")
  {
    LookupFirstAt(MagicHeaders, 6);
  }

  lemma DllTypesShape()
    ensures |DllTypes| == 20 && DistinctKeys(DllTypes)
  {
    assert forall i | 0 <= i < |DllTypes| - 1 :: DllTypes[i].0 < DllTypes[i + 1].0;
    IncreasingDistinct(DllTypes);
  }

  lemma {:induction false} IncreasingDistinct(table: seq<(int, string)>)
    requires forall i | 0 <= i < |table| - 1 :: table[i].0 < table[i + 1].0
    ensures DistinctKeys(table)
    ensures forall i, j | 0 <= i < j < |table| :: table[i].0 < table[j].0
    decreases |table|
  {
    if |table| > 1 {
      var t := table[1..];
      assert forall i | 0 <= i < |t| - 1 :: t[i].0 < t[i + 1].0 by {
        forall i | 0 <= i < |t| - 1 ensures t[i].0 < t[i + 1].0 {
          assert t[i] == table[i + 1] && t[i + 1] == table[i + 2];
        }
      }
      IncreasingDistinct(t);
      forall i, j | 0 <= i < j < |table| ensures table[i].0 < table[j].0 {
        if i == 0 {
          if j > 1 { assert t[0] == table[1] && t[j - 1] == table[j]; }
        } else {
          assert t[i - 1] == table[i] && t[j - 1] == table[j];
        }
      }
    }
  }

  /** With distinct keys, the lookup finds the pair at any position. */
  lemma {:induction false} LookupAt<K, V>(table: seq<(K, V)>, k: int)
    requires DistinctKeys(table) && 0 <= k < |table|
    ensures LookupIn(table, table[k].0) == Some(table[k].1)
    decreases |table|
  {
    if k > 0 {
      var t := table[1..];
      assert t[k - 1] == table[k];
      assert table[0].0 != table[k].0;
      LookupAt(t, k - 1);
    }
  }

  /** The lookup finds the pair at `k` when no earlier pair has its key. */
  lemma {:induction false} LookupFirstAt<K, V>(table: seq<(K, V)>, k: int)
    requires 0 <= k < |table|
    requires forall i | 0 <= i < k :: table[i].0 != table[k].0
    ensures LookupIn(table, table[k].0) == Some(table[k].1)
    decreases |table|
  {
    if k > 0 {
      var t := table[1..];
      assert t[k - 1] == table[k];
      assert forall i | 0 <= i < k - 1 :: t[i] == table[i + 1];
      LookupFirstAt(t, k - 1);
    }
  }

  lemma DllTypesNames()
    ensures DllLookup(0x0) == Some("UNKNOWN")
    ensures DllLookup(0x14c) == Some("I386")
    ensures DllLookup(0x8664) == Some("AMD64")
  {
    DllTypesShape();
    LookupAt(DllTypes, 0);
    LookupAt(DllTypes, 1);
    LookupAt(DllTypes, 18);
  }

  lemma CondaForgeCommentsAreComments()
    ensures forall i | 0 <= i < |CondaForgeCommentLines| ::
      CondaForgeCommentLines[i] != "" ==> CondaForgeCommentLines[i][0] == '#'
  {
  }
}
