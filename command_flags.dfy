/**
 * Command-line options as (option, value) pairs, shared by the aria2c and
 * curl command-line builders. Named collects what a command line says for
 * one option, which is how the builders' layouts are stated.
 */
module CommandFlags {

  datatype Flag<O> = Flag(opt: O, value: string)

  /** The values given for option o, in command-line order. */
  function Named<O(==)>(flags: seq<Flag<O>>, o: O): seq<string>
  {
    if |flags| == 0 then []
    else (if flags[0].opt == o then [flags[0].value] else []) + Named(flags[1..], o)
  }

  lemma {:induction false} NamedConcat<O>(a: seq<Flag<O>>, b: seq<Flag<O>>, o: O)
    ensures Named(a + b, o) == Named(a, o) + Named(b, o)
  {
    if a == [] {
      assert a + b == b;
    } else {
      assert (a + b)[1..] == a[1..] + b;
      NamedConcat(a[1..], b, o);
    }
  }

  lemma NamedSingle<O>(f: Flag<O>, o: O)
    ensures Named([f], o) == if f.opt == o then [f.value] else []
  {
    assert [f][1..] == [];
  }

  /** A command line made of six groups says for o what the groups say, in group order. */
  lemma NamedSix<O>(a: seq<Flag<O>>, b: seq<Flag<O>>, c: seq<Flag<O>>, d: seq<Flag<O>>, e: seq<Flag<O>>,
                    f: seq<Flag<O>>, o: O)
    ensures Named(a + b + c + d + e + f, o) ==
              Named(a, o) + Named(b, o) + Named(c, o) + Named(d, o) + Named(e, o) + Named(f, o)
  {
    NamedConcat(a + b + c + d + e, f, o);
    NamedConcat(a + b + c + d, e, o);
    NamedConcat(a + b + c, d, o);
    NamedConcat(a + b, c, o);
    NamedConcat(a, b, o);
  }

  /** Five groups that each say nothing for o say nothing for it together. */
  lemma NamedNoneOfFive<O>(a: seq<Flag<O>>, b: seq<Flag<O>>, c: seq<Flag<O>>, d: seq<Flag<O>>, e: seq<Flag<O>>, o: O)
    requires Named(a, o) == [] && Named(b, o) == [] && Named(c, o) == [] && Named(d, o) == [] && Named(e, o) == []
    ensures Named(a + b + c + d + e, o) == []
  {
    NamedConcat(a + b + c + d, e, o);
    NamedConcat(a + b + c, d, o);
    NamedConcat(a + b, c, o);
    NamedConcat(a, b, o);
  }

  /** Two and four flags, one at a time. */
  lemma NamedTwo<O>(f: Flag<O>, g: Flag<O>, o: O)
    ensures Named([f, g], o) == Named([f], o) + Named([g], o)
  {
    assert [f, g] == [f] + [g];
    NamedConcat([f], [g], o);
  }

  lemma NamedFour<O>(w: Flag<O>, x: Flag<O>, y: Flag<O>, z: Flag<O>, o: O)
    ensures Named([w, x, y, z], o) == Named([w], o) + Named([x], o) + Named([y], o) + Named([z], o)
  {
    assert [w, x, y, z] == [w, x] + [y, z];
    NamedConcat([w, x], [y, z], o);
    NamedTwo(w, x, o);
    NamedTwo(y, z, o);
  }

  /** An element before and one after six groups, regrouped. */
  lemma EnclosedSix<T>(x: T, t: seq<T>, a: seq<T>, b: seq<T>, c: seq<T>, d: seq<T>, e: seq<T>, f: seq<T>, y: T)
    requires t == a + b + c + d + e + f
    ensures [x] + t + [y] == [x] + a + b + c + d + e + f + [y]
  {
  }

  /** Where the first three of six groups sit, when the first has four elements and the third one. */
  lemma GroupsLayout<T>(a: seq<T>, b: seq<T>, c: seq<T>, d: seq<T>, e: seq<T>, f: seq<T>)
    requires |a| == 4 && |c| == 1
    ensures var s := a + b + c + d + e + f;
      && |s| >= 5 + |b|
      && s[..4] == a
      && (forall i :: 0 <= i < |b| ==> s[4 + i] == b[i])
      && s[4 + |b|] == c[0]
  {
    var s := a + b + c + d + e + f;
    assert s == a + (b + (c + (d + e + f)));
  }

  /** A list grown by seven groups one after another ends as its start plus their concatenation. */
  lemma AppendSeven<T>(m0: seq<T>, m1: seq<T>, m2: seq<T>, m3: seq<T>, m4: seq<T>, m5: seq<T>, m6: seq<T>,
                       m7: seq<T>, g0: seq<T>, g1: seq<T>, g2: seq<T>, g3: seq<T>, g4: seq<T>, g5: seq<T>,
                       g6: seq<T>)
    requires m1 == m0 + g0 && m2 == m1 + g1 && m3 == m2 + g2 && m4 == m3 + g3
    requires m5 == m4 + g4 && m6 == m5 + g5 && m7 == m6 + g6
    ensures m7 == m0 + (g0 + g1 + g2 + g3 + g4 + g5 + g6)
  {
  }

  /** The same for eight groups. */
  lemma AppendEight<T>(m0: seq<T>, m1: seq<T>, m2: seq<T>, m3: seq<T>, m4: seq<T>, m5: seq<T>, m6: seq<T>,
                       m7: seq<T>, m8: seq<T>, g0: seq<T>, g1: seq<T>, g2: seq<T>, g3: seq<T>, g4: seq<T>,
                       g5: seq<T>, g6: seq<T>, g7: seq<T>)
    requires m1 == m0 + g0 && m2 == m1 + g1 && m3 == m2 + g2 && m4 == m3 + g3
    requires m5 == m4 + g4 && m6 == m5 + g5 && m7 == m6 + g6 && m8 == m7 + g7
    ensures m8 == m0 + (g0 + g1 + g2 + g3 + g4 + g5 + g6 + g7)
  {
    AppendSeven(m0, m1, m2, m3, m4, m5, m6, m7, g0, g1, g2, g3, g4, g5, g6);
  }

  /** One option of kind o per value, in order: one flag per header. */
  function Repeated<O>(o: O, values: seq<string>): (r: seq<Flag<O>>)
    ensures |r| == |values|
    ensures forall i :: 0 <= i < |values| ==> r[i] == Flag(o, values[i])
  {
    seq(|values|, i requires 0 <= i < |values| => Flag(o, values[i]))
  }

  /** Repeating o says exactly the given values for o, and nothing for any other option. */
  lemma {:induction false} NamedRepeated<O>(o: O, values: seq<string>, p: O)
    ensures Named(Repeated(o, values), p) == if p == o then values else []
  {
    if values != [] {
      assert Repeated(o, values)[1..] == Repeated(o, values[1..]);
      NamedRepeated(o, values[1..], p);
    }
  }
}
