/** The names of the tools `build_default_tools` returns, in backend/agent/tools/mac_tools.py and in
    its older copy backend/app/core/tools/mac_tools.py. The tool objects themselves are not part of
    this module; each name is the `name` field of the class or the `name=` argument of the
    `SimpleCommandTool` at that position. */
module ToolCatalog {
  import Seqs

  /** No element of `a` occurs in `b`. */
  predicate Disjoint<T(==)>(a: seq<T>, b: seq<T>) {
    forall i, j :: 0 <= i < |a| && 0 <= j < |b| ==> a[i] != b[j]
  }

  /** Two duplicate-free sequences with no element in common make a duplicate-free sequence. */
  lemma DistinctAppend<T>(a: seq<T>, b: seq<T>)
    requires Seqs.Distinct(a) && Seqs.Distinct(b) && Disjoint(a, b)
    ensures Seqs.Distinct(a + b)
  {
    var s := a + b;
    forall i, j | 0 <= i < j < |s| ensures s[i] != s[j] {
      if j < |a| {
        assert s[i] == a[i] && s[j] == a[j];
      } else if i < |a| {
        assert s[i] == a[i] && s[j] == b[j - |a|];
      } else {
        assert s[i] == b[i - |a|] && s[j] == b[j - |a|];
      }
    }
  }

  /** Every prefix of a duplicate-free sequence is duplicate-free. */
  lemma DistinctPrefix<T>(s: seq<T>, n: nat)
    requires n <= |s| && Seqs.Distinct(s)
    ensures Seqs.Distinct(s[..n])
  {
    forall i, j | 0 <= i < j < n ensures s[..n][i] != s[..n][j] {
      assert s[..n][i] == s[i] && s[..n][j] == s[j];
    }
  }

  // The list of backend/agent/tools/mac_tools.py, ten entries at a time.

  /** System information, process management and the first network tools. */
  const Part1: seq<string> := ["system_info", "disk_usage", "battery_status", "system_sleep_settings",
    "process_list", "top_processes", "open_ports", "network_info", "dns_info", "wifi_info"]

  /** The remaining network tools and the file tools. */
  const Part2: seq<string> := ["download_file", "check_website_status", "ping_host", "list_directory",
    "search_files", "read_file", "write_file", "append_file", "make_directory", "file_info"]

  /** File, document, media and the first developer tools. */
  const Part3: seq<string> := ["find_in_file", "move_to_trash", "batch_summarize_documents",
    "extract_text_from_documents", "compress_images", "capture_screenshot", "get_video_info", "git_status",
    "git_log", "run_python_script"]

  /** Productivity, system management, data and time tools. */
  const Part4: seq<string> := ["compress_files", "extract_archive", "calculate_hash", "clipboard_operations",
    "get_environment_variables", "spotlight_search", "json_formatter", "csv_analyzer", "text_statistics",
    "timezone_converter"]

  /** Application, text, advanced file, port and shell tools; the older copy stops after the third. */
  const Part5: seq<string> := ["open_app", "open_url", "list_applications", "grep_search", "grep_recursive",
    "tail_log", "find_advanced", "diff_files", "port_killer", "execute_shell_command"]

  /** The names `build_default_tools` of backend/agent/tools/mac_tools.py returns, in order. */
  function AgentToolNames(): seq<string> {
    Part1 + Part2 + Part3 + Part4 + Part5
  }

  /** The names `build_default_tools` of backend/app/core/tools/mac_tools.py returns, in order: the
      same list up to `list_applications`. */
  function AppToolNames(): seq<string> {
    Part1 + Part2 + Part3 + Part4 + Part5[..3]
  }

  lemma PartsDistinct()
    ensures Seqs.Distinct(Part1) && Seqs.Distinct(Part2) && Seqs.Distinct(Part3)
    ensures Seqs.Distinct(Part4) && Seqs.Distinct(Part5)
  {
  }

  lemma FirstPartsDisjoint()
    ensures Disjoint(Part1, Part2) && Disjoint(Part1, Part3) && Disjoint(Part1, Part4) && Disjoint(Part1, Part5)
  {
  }

  lemma MiddlePartsDisjoint()
    ensures Disjoint(Part2, Part3) && Disjoint(Part2, Part4) && Disjoint(Part2, Part5)
    ensures Disjoint(Part3, Part4) && Disjoint(Part3, Part5)
  {
    SecondPartDisjoint();
    ThirdPartDisjoint();
  }

  lemma SecondPartDisjoint()
    ensures Disjoint(Part2, Part3) && Disjoint(Part2, Part4) && Disjoint(Part2, Part5)
  {
  }

  lemma ThirdPartDisjoint()
    ensures Disjoint(Part3, Part4) && Disjoint(Part3, Part5)
  {
  }

  lemma LastPartsDisjoint()
    ensures Disjoint(Part4, Part5)
  {
  }

  /** Whatever is disjoint from each of two sequences is disjoint from their concatenation. */
  lemma DisjointAppend<T>(a: seq<T>, b: seq<T>, c: seq<T>)
    requires Disjoint(a, c) && Disjoint(b, c)
    ensures Disjoint(a + b, c)
  {
    forall i, j | 0 <= i < |a + b| && 0 <= j < |c| ensures (a + b)[i] != c[j] {
      if i < |a| {
        assert (a + b)[i] == a[i];
      } else {
        assert (a + b)[i] == b[i - |a|];
      }
    }
  }

  /** The agent's tool list has fifty entries, no two with the same name, and the shell tool last;
      the older list has forty-three, is the agent list's prefix, and lacks the shell tool. */
  lemma DefaultToolNames()
    ensures |AgentToolNames()| == 50 && Seqs.Distinct(AgentToolNames())
    ensures AgentToolNames()[49] == "execute_shell_command"
    ensures |AppToolNames()| == 43 && Seqs.Distinct(AppToolNames())
    ensures AppToolNames() == AgentToolNames()[..43]
    ensures "execute_shell_command" !in AppToolNames()
  {
    PartsDistinct();
    FirstPartsDisjoint();
    MiddlePartsDisjoint();
    LastPartsDisjoint();
    var p12 := Part1 + Part2;
    DistinctAppend(Part1, Part2);
    DisjointAppend(Part1, Part2, Part3);
    var p123 := p12 + Part3;
    DistinctAppend(p12, Part3);
    DisjointAppend(Part1, Part2, Part4);
    DisjointAppend(p12, Part3, Part4);
    var p1234 := p123 + Part4;
    DistinctAppend(p123, Part4);
    DisjointAppend(Part1, Part2, Part5);
    DisjointAppend(p12, Part3, Part5);
    DisjointAppend(p123, Part4, Part5);
    var all := p1234 + Part5;
    DistinctAppend(p1234, Part5);
    assert all == AgentToolNames();
    assert AppToolNames() == all[..43] by {
      assert all[..43] == p1234 + Part5[..3];
    }
    DistinctPrefix(all, 43);
    assert all[49] == Part5[9];
    forall k | 0 <= k < 43 ensures AppToolNames()[k] != "execute_shell_command" {
      assert AppToolNames()[k] == all[k];
    }
  }
}
