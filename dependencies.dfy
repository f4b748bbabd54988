/**
 * The dependency index of Spreadsheet: for a referenced key, the keys of the
 * cells whose formulas mention it, and how setCellContent rewires it.
 */
module Dependencies {
  import opened Text
  import opened Formula

  /** Referenced key to the set of keys of the cells that mention it. */
  type Deps = map<string, set<string>>

  /** The recorded dependents of `k`, none when it has no entry. */
  function Dependents(deps: Deps, k: string): set<string> {
    if k in deps then deps[k] else {}
  }

  /** Spreadsheet.addDependency: record `dependent` among the cells that mention `dependency`. */
  function AddEdge(deps: Deps, dependent: string, dependency: string): (r: Deps)
    ensures r.Keys == deps.Keys + {dependency}
    ensures forall k | k in r :: r[k] == Dependents(deps, k) + (if k == dependency then {dependent} else {})
  {
    deps[dependency := Dependents(deps, dependency) + {dependent}]
  }

  /**
   * The tokens setCellContent scans for references: the text after "=" cut
   * before and after each of `+ * / ( ) -`; plain content has none.
   */
  function ScannedTokens(content: string): (ts: seq<string>)
    ensures ts == [] <==> !StartsWith(content, "=")
  {
    if StartsWith(content, "=") then Tokenize(content[1..], RefDelims) else []
  }

  /** The scanning loop: `key` becomes a dependent of every token shaped like a reference. */
  function Register(deps: Deps, key: string, tokens: seq<string>): Deps
    decreases |tokens|
  {
    if tokens == [] then deps
    else
      var next := if IsReference(tokens[0]) then AddEdge(deps, key, tokens[0]) else deps;
      Register(next, key, tokens[1..])
  }

  /** `k` is one of the tokens and is shaped like a reference. */
  predicate Mentioned(tokens: seq<string>, k: string) {
    k in tokens && IsReference(k)
  }

  /**
   * Registration gives an entry to each reference token and adds `key` to
   * its dependents, and changes nothing else.
   */
  lemma {:induction false} RegisterSpec(deps: Deps, key: string, tokens: seq<string>, k: string)
    ensures k in Register(deps, key, tokens) <==> k in deps || Mentioned(tokens, k)
    ensures k in Register(deps, key, tokens) ==>
      Register(deps, key, tokens)[k] == Dependents(deps, k) + (if Mentioned(tokens, k) then {key} else {})
    decreases |tokens|
  {
    if tokens != [] {
      var t := tokens[0];
      var next := if IsReference(t) then AddEdge(deps, key, t) else deps;
      RegisterSpec(next, key, tokens[1..], k);
      assert k in tokens <==> k == t || k in tokens[1..];
    }
  }

  /**
   * What setCellContent does to the index: drop the entry listing the
   * dependents of `key`, then register `key` under every reference token of
   * its new content.
   */
  function Rewire(deps: Deps, key: string, content: string): Deps {
    Register(deps - {key}, key, ScannedTokens(content))
  }

  /**
   * After rewiring, `key` has an entry exactly when its own content mentions
   * it, and then the entry lists only `key`: propagation from a changed cell
   * can reach nothing but the cell itself.
   */
  lemma {:induction false} OnlySelfDependent(deps: Deps, key: string, content: string)
    ensures var r := Rewire(deps, key, content);
      (key in r <==> key in ScannedTokens(content) && IsReference(key)) &&
      (key in r ==> r[key] == {key})
  {
    RegisterSpec(deps - {key}, key, ScannedTokens(content), key);
  }

  /** Entries of other keys keep their dependents and at most gain `key`. */
  lemma {:induction false} RewireElsewhere(deps: Deps, key: string, content: string, k: string)
    requires k != key
    ensures Dependents(deps, k) <= Dependents(Rewire(deps, key, content), k) <= Dependents(deps, k) + {key}
  {
    RegisterSpec(deps - {key}, key, ScannedTokens(content), k);
  }
}
