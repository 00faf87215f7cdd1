/** Counting tasks by program point. */
module Counting {

  ghost function Those<P>(tasks: map<nat, P>, p: P -> bool): set<nat> {
    set t | t in tasks && p(tasks[t])
  }

  ghost function Count<P>(tasks: map<nat, P>, p: P -> bool): nat {
    |Those(tasks, p)|
  }

  lemma ElsewhereAlike<P>(tasks: map<nat, P>, t: nat, pc: P, p: P -> bool)
    ensures Those(tasks[t := pc], p) - {t} == Those(tasks, p) - {t}
  {
  }

  lemma SizeWithout(s: set<nat>, t: nat)
    ensures |s| == |s - {t}| + (if t in s then 1 else 0)
  {
    if t !in s { assert s - {t} == s; }
  }

  /** Moving one task changes the count by what it was and what it is. */
  lemma CountAfter<P>(tasks: map<nat, P>, t: nat, pc: P, p: P -> bool)
    ensures Count(tasks[t := pc], p) ==
            Count(tasks, p) - (if t in tasks && p(tasks[t]) then 1 else 0) + (if p(pc) then 1 else 0)
  {
    ElsewhereAlike(tasks, t, pc, p);
    SizeWithout(Those(tasks, p), t);
    SizeWithout(Those(tasks[t := pc], p), t);
  }
}
