/** Where an announced file is stored: the collision loop of `process_introduction` (inbound.rs).
    Paths are plain file names inside the download directory. */
module Destination {
  import opened Decimals

  function Numbered(counter: nat, name: string): string {
    Decimal(counter) + "_" + name
  }

  lemma NumberedInjective(i: nat, j: nat, name: string)
    requires Numbered(i, name) == Numbered(j, name)
    ensures i == j
  {
    var a, b := Decimal(i), Decimal(j);
    assert |a| == |b|;
    assert a == Numbered(i, name)[..|a|];
    assert b == Numbered(j, name)[..|b|];
    DecimalInjective(i, j);
  }

  /** The path the receiver picks: the name itself when it is free, else `k_name` for the least free k. */
  ghost predicate Chosen(existing: set<string>, name: string, path: string) {
    if name !in existing then path == name
    else exists k: nat | k >= 1 :: LeastFree(existing, name, k) && path == Numbered(k, name)
  }

  ghost predicate LeastFree(existing: set<string>, name: string, k: nat) {
    Numbered(k, name) !in existing && forall j | 1 <= j < k :: Numbered(j, name) in existing
  }

  lemma ChosenIsUnique(existing: set<string>, name: string, p: string, q: string)
    requires Chosen(existing, name, p) && Chosen(existing, name, q)
    ensures p == q && p !in existing
  {
    if name in existing {
      var i: nat :| i >= 1 && LeastFree(existing, name, i) && p == Numbered(i, name);
      var j: nat :| j >= 1 && LeastFree(existing, name, j) && q == Numbered(j, name);
      assert i == j;
    }
  }

  /** The least free counter from k on; `left` is what the directory holds beyond the names already tried. */
  function FreeFrom(left: set<string>, name: string, k: nat): (free: nat)
    ensures free >= k
    decreases |left|
  {
    if Numbered(k, name) in left then FreeFrom(left - {Numbered(k, name)}, name, k + 1) else k
  }

  function Path(existing: set<string>, name: string): string {
    if name in existing then Numbered(FreeFrom(existing, name, 1), name) else name
  }

  lemma {:induction false} FreeFromIsLeast(left: set<string>, name: string, k: nat)
    ensures var free := FreeFrom(left, name, k);
            Numbered(free, name) !in left && forall j | k <= j < free :: Numbered(j, name) in left
    decreases |left|
  {
    if Numbered(k, name) in left {
      var rest := left - {Numbered(k, name)};
      FreeFromIsLeast(rest, name, k + 1);
      var free := FreeFrom(rest, name, k + 1);
      if Numbered(free, name) == Numbered(k, name) {
        NumberedInjective(free, k, name);
      }
    }
  }

  lemma PathIsChosen(existing: set<string>, name: string)
    ensures Chosen(existing, name, Path(existing, name))
  {
    if name in existing {
      FreeFromIsLeast(existing, name, 1);
      assert LeastFree(existing, name, FreeFrom(existing, name, 1));
    }
  }

  /** The loop itself. It ends because every name it rejects is another existing path. */
  method ChooseDestination(existing: set<string>, name: string) returns (dest: string)
    ensures Chosen(existing, name, dest)
    ensures dest == Path(existing, name) && dest !in existing
  {
    dest := name;
    if dest in existing {
      var counter: nat := 1;
      ghost var tried: set<string> := {};
      while true
        invariant counter >= 1
        invariant forall j | 1 <= j < counter :: Numbered(j, name) in existing
        invariant forall s :: s in tried <==> exists j | 1 <= j < counter :: s == Numbered(j, name)
        invariant tried <= existing
        decreases existing - tried
      {
        dest := Numbered(counter, name);
        if dest !in existing {
          break;
        }
        if dest in tried {
          var j :| 1 <= j < counter && dest == Numbered(j, name);
          NumberedInjective(counter, j, name);
        }
        tried := tried + {dest};
        counter := counter + 1;
      }
      assert LeastFree(existing, name, counter);
    }
    PathIsChosen(existing, name);
    ChosenIsUnique(existing, name, dest, Path(existing, name));
  }
}
