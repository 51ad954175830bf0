/**
 * The server registry of `MCPClient`: the insertion-ordered `sessions`
 * dictionary from server script path to that server's tool list, the
 * deduplicated tool catalogue recomputed from it, and the routing rule
 * `use_tool` applies (first session, in insertion order, listing the name).
 */
module Registry {
  import opened Wrappers
  import opened Text
  import opened Protocol

  /** One entry of `sessions`: the script path and the tools its server listed. */
  datatype Session = Session(path: string, tools: seq<Tool>)

  /** The paths `connect_to_server` accepts for launching. */
  predicate IsScriptPath(path: string)
  {
    EndsWith(path, ".py") || EndsWith(path, ".js")
  }

  /** Dictionary keys are distinct, and only accepted script paths are ever stored. */
  predicate ValidSessions(sessions: seq<Session>)
  {
    && (forall i, j | 0 <= i < j < |sessions| :: sessions[i].path != sessions[j].path)
    && (forall i | 0 <= i < |sessions| :: IsScriptPath(sessions[i].path))
  }

  /** Where `path` sits in the dictionary's insertion order, if it is a key. */
  function IndexOf(sessions: seq<Session>, path: string): (r: Option<nat>)
    ensures r.Some? ==> r.value < |sessions| && sessions[r.value].path == path
    ensures r.Some? ==> forall j | 0 <= j < r.value :: sessions[j].path != path
    ensures r.None? <==> forall j | 0 <= j < |sessions| :: sessions[j].path != path
  {
    if sessions == [] then None
    else if sessions[0].path == path then Some(0)
    else match IndexOf(sessions[1..], path)
      case None => None
      case Some(i) => Some(i + 1)
  }

  /** The characterisation of `IndexOf` determines it. */
  lemma IndexOfIs(sessions: seq<Session>, path: string, i: nat)
    requires i < |sessions| && sessions[i].path == path
    requires forall j | 0 <= j < i :: sessions[j].path != path
    ensures IndexOf(sessions, path) == Some(i)
  {
  }

  /**
   * Python's `sessions[path] = {..., "tools": tools}`: an existing key keeps
   * its position and gets the new tool list; a new key is added at the end.
   * No other entry changes.
   */
  function Put(sessions: seq<Session>, path: string, tools: seq<Tool>): (r: seq<Session>)
    ensures IndexOf(r, path).Some? && r[IndexOf(r, path).value].tools == tools
    ensures IndexOf(sessions, path).Some? ==>
              && |r| == |sessions|
              && IndexOf(r, path) == IndexOf(sessions, path)
              && forall j | 0 <= j < |r| :: r[j].path == sessions[j].path
    ensures IndexOf(sessions, path).None? ==> r == sessions + [Session(path, tools)]
    ensures forall j | 0 <= j < |sessions| && sessions[j].path != path :: r[j] == sessions[j]
    ensures ValidSessions(sessions) && IsScriptPath(path) ==> ValidSessions(r)
  {
    match IndexOf(sessions, path)
    case Some(i) =>
      var r := sessions[i := Session(path, tools)];
      IndexOfIs(r, path, i);
      r
    case None =>
      var r := sessions + [Session(path, tools)];
      assert forall j | 0 <= j < |sessions| :: r[j].path != path;
      IndexOfIs(r, path, |sessions|);
      r
  }

  /** All tools of all sessions, session by session in insertion order (the `tools.extend` loop). */
  function Concat(sessions: seq<Session>): seq<Tool>
  {
    if sessions == [] then [] else sessions[0].tools + Concat(sessions[1..])
  }

  lemma {:induction false} ConcatSnoc(sessions: seq<Session>, last: Session)
    ensures Concat(sessions + [last]) == Concat(sessions) + last.tools
  {
    if sessions != [] {
      assert (sessions + [last])[1..] == sessions[1..] + [last];
      ConcatSnoc(sessions[1..], last);
    }
  }

  /** Python's `any(tool.name == name for tool in tools)`. */
  predicate HasName(tools: seq<Tool>, name: string)
  {
    exists i | 0 <= i < |tools| :: tools[i].name == name
  }

  /** The position of the first tool called `name`. */
  function FirstIndex(tools: seq<Tool>, name: string): (r: Option<nat>)
    ensures r.Some? ==> r.value < |tools| && tools[r.value].name == name
    ensures r.Some? ==> forall j | 0 <= j < r.value :: tools[j].name != name
    ensures r.None? <==> !HasName(tools, name)
  {
    if tools == [] then None
    else if tools[0].name == name then Some(0)
    else match FirstIndex(tools[1..], name)
      case None => None
      case Some(i) => Some(i + 1)
  }

  /** The characterisation of `FirstIndex` determines it. */
  lemma FirstIndexIs(tools: seq<Tool>, name: string, i: nat)
    requires i < |tools| && tools[i].name == name
    requires forall j | 0 <= j < i :: tools[j].name != name
    ensures FirstIndex(tools, name) == Some(i)
  {
  }

  /**
   * The filtering loop of `_update_available_tools`: keep a tool when its
   * name is not in `seen`, then add the name to `seen`.
   */
  function DedupFrom(tools: seq<Tool>, seen: set<string>): seq<Tool>
  {
    if tools == [] then []
    else if tools[0].name in seen then DedupFrom(tools[1..], seen)
    else [tools[0]] + DedupFrom(tools[1..], seen + {tools[0].name})
  }

  /** `available_tools` as `_update_available_tools` computes it from the sessions. */
  function Catalog(sessions: seq<Session>): seq<Tool>
  {
    DedupFrom(Concat(sessions), {})
  }

  predicate DistinctNames(tools: seq<Tool>)
  {
    forall i, j | 0 <= i < j < |tools| :: tools[i].name != tools[j].name
  }

  /** `r` is `s` with some elements left out and the rest in their order. */
  predicate IsSubsequence<T(==)>(r: seq<T>, s: seq<T>)
    decreases |s|
  {
    if r == [] then true
    else if s == [] then false
    else if r[0] == s[0] then IsSubsequence(r[1..], s[1..])
    else IsSubsequence(r, s[1..])
  }

  /** `tools[k]` is the first tool of `tools` that carries its name. */
  predicate IsFirstOccurrence(tools: seq<Tool>, t: Tool)
  {
    FirstIndex(tools, t.name).Some? && tools[FirstIndex(tools, t.name).value] == t
  }

  lemma HasNameAppend(a: seq<Tool>, b: seq<Tool>, name: string)
    ensures HasName(a + b, name) <==> HasName(a, name) || HasName(b, name)
  {
    if HasName(a + b, name) {
      var i :| 0 <= i < |a + b| && (a + b)[i].name == name;
      if i < |a| { assert a[i].name == name; } else { assert b[i - |a|].name == name; }
    }
    if HasName(a, name) {
      var i :| 0 <= i < |a| && a[i].name == name;
      assert (a + b)[i].name == name;
    }
    if HasName(b, name) {
      var i :| 0 <= i < |b| && b[i].name == name;
      assert (a + b)[|a| + i].name == name;
    }
  }

  /** Where the first `name` sits in `a + b`: in `a` when `a` has it, else shifted from `b`. */
  lemma FirstIndexAppend(a: seq<Tool>, b: seq<Tool>, name: string)
    ensures HasName(a, name) ==> FirstIndex(a + b, name) == FirstIndex(a, name)
    ensures !HasName(a, name) && HasName(b, name) ==>
              FirstIndex(a + b, name) == Some(|a| + FirstIndex(b, name).value)
    ensures !HasName(a, name) && !HasName(b, name) ==> FirstIndex(a + b, name).None?
  {
    HasNameAppend(a, b, name);
    if HasName(a, name) {
      FirstIndexInLeft(a, b, name);
    } else if HasName(b, name) {
      FirstIndexInRight(a, b, name);
    }
  }

  lemma FirstIndexInLeft(a: seq<Tool>, b: seq<Tool>, name: string)
    requires HasName(a, name)
    ensures FirstIndex(a + b, name) == FirstIndex(a, name)
  {
    var i := FirstIndex(a, name).value;
    assert forall j | 0 <= j <= i :: (a + b)[j] == a[j];
    FirstIndexIs(a + b, name, i);
  }

  lemma {:induction false} FirstIndexInRight(a: seq<Tool>, b: seq<Tool>, name: string)
    requires !HasName(a, name) && HasName(b, name)
    ensures FirstIndex(a + b, name) == Some(|a| + FirstIndex(b, name).value)
  {
    if a == [] {
      assert a + b == b;
    } else {
      NoNameInTail(a, name);
      FirstIndexInRight(a[1..], b, name);
      ConsAppend(a, b);
    }
  }

  lemma NoNameInTail(a: seq<Tool>, name: string)
    requires a != [] && !HasName(a, name)
    ensures a[0].name != name && !HasName(a[1..], name)
  {
    forall j | 0 <= j < |a[1..]| ensures a[1..][j].name != name {
      assert a[1..][j] == a[j + 1];
    }
  }

  lemma ConsAppend<T>(a: seq<T>, b: seq<T>)
    requires a != []
    ensures (a + b)[0] == a[0] && (a + b)[1..] == a[1..] + b
  {
  }

  /** The filtering loop keeps no name of `seen`. */
  lemma {:induction false} DedupAvoidsSeen(tools: seq<Tool>, seen: set<string>)
    ensures forall i | 0 <= i < |DedupFrom(tools, seen)| :: DedupFrom(tools, seen)[i].name !in seen
    decreases |tools|
  {
    if tools != [] {
      if tools[0].name in seen {
        DedupAvoidsSeen(tools[1..], seen);
      } else {
        DedupAvoidsSeen(tools[1..], seen + {tools[0].name});
      }
    }
  }

  /** The filtering loop keeps each name at most once. */
  lemma {:induction false} DedupDistinct(tools: seq<Tool>, seen: set<string>)
    ensures DistinctNames(DedupFrom(tools, seen))
    decreases |tools|
  {
    if tools != [] {
      if tools[0].name in seen {
        DedupDistinct(tools[1..], seen);
      } else {
        var t := tools[0];
        DedupDistinct(tools[1..], seen + {t.name});
        DedupAvoidsSeen(tools[1..], seen + {t.name});
        var r := [t] + DedupFrom(tools[1..], seen + {t.name});
        assert forall j | 1 <= j < |r| :: r[j].name != t.name;
      }
    }
  }

  /** The filtering loop keeps every name of its input outside `seen`, and no other. */
  lemma {:induction false} DedupNames(tools: seq<Tool>, seen: set<string>)
    ensures forall n :: HasName(DedupFrom(tools, seen), n) <==> HasName(tools, n) && n !in seen
    decreases |tools|
  {
    if tools != [] {
      var t, rest := tools[0], tools[1..];
      assert tools == [t] + rest;
      forall n ensures HasName(tools, n) <==> HasName([t], n) || HasName(rest, n) {
        HasNameAppend([t], rest, n);
      }
      if t.name in seen {
        DedupNames(rest, seen);
      } else {
        var r' := DedupFrom(rest, seen + {t.name});
        DedupNames(rest, seen + {t.name});
        forall n ensures HasName([t] + r', n) <==> HasName([t], n) || HasName(r', n) {
          HasNameAppend([t], r', n);
        }
      }
    }
  }

  /** Each tool the filtering loop keeps is the first tool of its name in the input. */
  lemma {:induction false} DedupKeepsFirst(tools: seq<Tool>, seen: set<string>)
    ensures forall k | 0 <= k < |DedupFrom(tools, seen)| :: IsFirstOccurrence(tools, DedupFrom(tools, seen)[k])
    decreases |tools|
  {
    if tools != [] {
      var t, rest := tools[0], tools[1..];
      assert tools == [t] + rest;
      var seen' := if t.name in seen then seen else seen + {t.name};
      var r' := DedupFrom(rest, seen');
      DedupKeepsFirst(rest, seen');
      DedupAvoidsSeen(rest, seen');
      forall k | 0 <= k < |r'| ensures IsFirstOccurrence(tools, r'[k]) {
        FirstIndexAppend([t], rest, r'[k].name);
        assert !HasName([t], r'[k].name);
      }
      if t.name !in seen {
        FirstIndexAppend([t], rest, t.name);
        assert HasName([t], t.name);
        var r := [t] + r';
        forall k | 0 <= k < |r| ensures IsFirstOccurrence(tools, r[k]) {
          if k > 0 { assert r[k] == r'[k - 1]; }
        }
      }
    }
  }

  /** The filtering loop keeps its survivors in input order. */
  lemma {:induction false} DedupSubsequence(tools: seq<Tool>, seen: set<string>)
    ensures IsSubsequence(DedupFrom(tools, seen), tools)
    decreases |tools|
  {
    if tools != [] {
      var t, rest := tools[0], tools[1..];
      if t.name in seen {
        var r := DedupFrom(rest, seen);
        DedupSubsequence(rest, seen);
        DedupAvoidsSeen(rest, seen);
        assert r != [] ==> r[0] != t;
      } else {
        var r' := DedupFrom(rest, seen + {t.name});
        DedupSubsequence(rest, seen + {t.name});
        assert ([t] + r')[1..] == r';
      }
    }
  }

  /** The session `use_tool` routes `name` to: the first, in insertion order, whose tools carry the name. */
  function OwnerIndex(sessions: seq<Session>, name: string): (r: Option<nat>)
    ensures r.Some? ==> r.value < |sessions| && HasName(sessions[r.value].tools, name)
    ensures r.Some? ==> forall j | 0 <= j < r.value :: !HasName(sessions[j].tools, name)
    ensures r.None? <==> forall j | 0 <= j < |sessions| :: !HasName(sessions[j].tools, name)
  {
    if sessions == [] then None
    else if HasName(sessions[0].tools, name) then Some(0)
    else match OwnerIndex(sessions[1..], name)
      case None => None
      case Some(i) => Some(i + 1)
  }

  /** The characterisation of `OwnerIndex` determines it. */
  lemma OwnerIndexIs(sessions: seq<Session>, name: string, i: nat)
    requires i < |sessions| && HasName(sessions[i].tools, name)
    requires forall j | 0 <= j < i :: !HasName(sessions[j].tools, name)
    ensures OwnerIndex(sessions, name) == Some(i)
  {
  }

  /**
   * In the concatenated tool list, the first tool called `name` is the first
   * tool of that name in the owning session, and the name occurs at all
   * exactly when some session owns it.
   */
  lemma {:induction false} FirstInConcat(sessions: seq<Session>, name: string)
    ensures HasName(Concat(sessions), name) <==> OwnerIndex(sessions, name).Some?
    ensures OwnerIndex(sessions, name).Some? ==>
              var owner := sessions[OwnerIndex(sessions, name).value].tools;
              Concat(sessions)[FirstIndex(Concat(sessions), name).value] == owner[FirstIndex(owner, name).value]
  {
    if sessions != [] {
      var a: seq<Tool>, b: seq<Tool> := sessions[0].tools, Concat(sessions[1..]);
      assert Concat(sessions) == a + b;
      FirstInConcat(sessions[1..], name);
      HasNameAppend(a, b, name);
      FirstIndexAppend(a, b, name);
      if !HasName(a, name) && HasName(b, name) {
        assert (a + b)[|a| + FirstIndex(b, name).value] == b[FirstIndex(b, name).value];
      }
    }
  }

  /** Names in `available_tools` are pairwise distinct. */
  lemma CatalogNamesDistinct(sessions: seq<Session>)
    ensures DistinctNames(Catalog(sessions))
  {
    DedupDistinct(Concat(sessions), {});
  }

  /**
   * Every tool name of every session is in `available_tools`, and every name
   * there belongs to some session.
   */
  lemma CatalogCoversSessions(sessions: seq<Session>)
    ensures forall i, j | 0 <= i < |sessions| && 0 <= j < |sessions[i].tools| ::
              HasName(Catalog(sessions), sessions[i].tools[j].name)
    ensures forall n :: HasName(Catalog(sessions), n) ==> OwnerIndex(sessions, n).Some?
  {
    DedupNames(Concat(sessions), {});
    forall i, j | 0 <= i < |sessions| && 0 <= j < |sessions[i].tools|
      ensures HasName(Catalog(sessions), sessions[i].tools[j].name)
    {
      var n := sessions[i].tools[j].name;
      assert HasName(sessions[i].tools, n);
      FirstInConcat(sessions, n);
    }
    forall n | HasName(Catalog(sessions), n) ensures OwnerIndex(sessions, n).Some? {
      FirstInConcat(sessions, n);
    }
  }

  /**
   * `available_tools` is an order-preserving subsequence of the concatenated
   * tool lists, and each entry is the first tool of its name there.
   */
  lemma CatalogFirstOccurrences(sessions: seq<Session>)
    ensures IsSubsequence(Catalog(sessions), Concat(sessions))
    ensures forall k | 0 <= k < |Catalog(sessions)| :: IsFirstOccurrence(Concat(sessions), Catalog(sessions)[k])
  {
    DedupSubsequence(Concat(sessions), {});
    DedupKeepsFirst(Concat(sessions), {});
  }

  /**
   * The catalogue agrees with routing: each entry is the first tool of its
   * name in the session `use_tool` would call for that name, so on a name
   * clash the server connected first wins.
   */
  lemma CatalogFollowsOwner(sessions: seq<Session>)
    ensures forall k | 0 <= k < |Catalog(sessions)| ::
              var t := Catalog(sessions)[k];
              OwnerIndex(sessions, t.name).Some? &&
              IsFirstOccurrence(sessions[OwnerIndex(sessions, t.name).value].tools, t)
  {
    DedupKeepsFirst(Concat(sessions), {});
    DedupNames(Concat(sessions), {});
    forall k | 0 <= k < |Catalog(sessions)|
      ensures var t := Catalog(sessions)[k];
              OwnerIndex(sessions, t.name).Some? &&
              IsFirstOccurrence(sessions[OwnerIndex(sessions, t.name).value].tools, t)
    {
      var t := Catalog(sessions)[k];
      assert HasName(Catalog(sessions), t.name);
      FirstInConcat(sessions, t.name);
    }
  }
}
