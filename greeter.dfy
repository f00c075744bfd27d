/** The greeting: a name placed inside a fixed sentence. */
module Greeter {

  const Opening := "Hello, "
  const Closing := "! Welcome to TypeScript with ESNext modules!"

  /** `p` occurs inside `s` starting at position `i`. */
  predicate OccursAt(s: string, p: string, i: int) {
    0 <= i <= |s| - |p| && s[i..i + |p|] == p
  }

  /** `p` occurs somewhere inside `s`. */
  predicate Contains(s: string, p: string) {
    exists i :: 0 <= i <= |s| - |p| && OccursAt(s, p, i)
  }

  /** `greet(name)`: the opening, then the name, then the closing sentence. */
  function Greet(name: string): (r: string)
    ensures |r| == |name| + 51
    ensures r[..7] == "Hello, "
    ensures r[7..7 + |name|] == name
    ensures r[7 + |name|..] == "! Welcome to TypeScript with ESNext modules!"
  {
    var r := Opening + name + Closing;
    assert r[..7] == Opening;
    assert r[7..7 + |name|] == name;
    assert r[7 + |name|..] == Closing;
    r
  }

  /** The greeting always mentions the name it was given. */
  lemma GreetContainsName(name: string)
    ensures Contains(Greet(name), name)
  {
    assert OccursAt(Greet(name), name, 7);
  }

  /** Different names give different greetings. */
  lemma GreetInjective(a: string, b: string)
    requires Greet(a) == Greet(b)
    ensures a == b
  {
  }

  /** The empty name still gives a well-formed greeting, `Hello, !` and all. */
  lemma GreetEmptyName()
    ensures Contains(Greet(""), "Hello, !")
  {
    var g := Greet("");
    assert g[..7] == "Hello, " && g[7..] == Closing;
    assert g[7] == Closing[0] == '!';
    assert g[..8] == g[..7] + [g[7]];
    assert OccursAt(g, "Hello, !", 0);
  }
}
