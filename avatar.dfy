/**
 * The avatar every people list in the front end draws: a colour picked from the user id
 * and the capitalised first letter of the name.
 */
module Avatar {
  import opened Wrappers
  import Text

  /** The eight avatar colours, in the order the hash indexes them. */
  const Palette: seq<string> :=
    ["#3b82f6", "#ef4444", "#10b981", "#f59e0b", "#8b5cf6", "#ec4899", "#06b6d4", "#84cc16"]

  /** What `charCodeAt` adds up for one character once `split('')` has cut the text into
   *  UTF-16 code units: the character itself, or its two surrogates above U+FFFF. */
  function CodeUnitSum(c: char): nat {
    var v := c as int;
    if v < 0x10000 then v
    else (0xD800 + (v - 0x10000) / 0x400) + (0xDC00 + (v - 0x10000) % 0x400)
  }

  /** The `reduce` over the code units of `s`, starting from 0. */
  function CodeSum(s: string): nat {
    if |s| == 0 then 0 else CodeUnitSum(s[0]) + CodeSum(s[1..])
  }

  /** The hash is additive over concatenation. */
  lemma {:induction false} CodeSumAppend(a: string, b: string)
    ensures CodeSum(a + b) == CodeSum(a) + CodeSum(b)
  {
    if |a| == 0 {
      assert a + b == b;
    } else {
      assert (a + b)[0] == a[0];
      assert (a + b)[1..] == a[1..] + b;
      CodeSumAppend(a[1..], b);
    }
  }

  /** `getUserColor`: the palette entry at the code-unit sum modulo the palette size. */
  function UserColor(id: string): (r: string)
    ensures r in Palette
    ensures r == Palette[CodeSum(id) % |Palette|]
  {
    Palette[CodeSum(id) % |Palette|]
  }

  /** The colour ignores the order of the parts of an id: only the sum of its code units counts. */
  lemma UserColorOrderFree(a: string, b: string)
    ensures UserColor(a + b) == UserColor(b + a)
  {
    CodeSumAppend(a, b);
    CodeSumAppend(b, a);
  }

  /** Appending a character whose code units add up to a multiple of eight keeps the colour,
   *  so distinct ids such as "u" and "u0" share one. */
  lemma UserColorCollision(id: string, c: char)
    requires CodeUnitSum(c) % 8 == 0
    ensures UserColor(id + [c]) == UserColor(id)
  {
    CodeSumAppend(id, [c]);
    assert CodeSum([c]) == CodeUnitSum(c);
    AddEights(CodeSum(id), CodeUnitSum(c) / 8);
  }

  lemma {:induction false} AddEights(x: nat, k: nat)
    ensures (x + 8 * k) % 8 == x % 8
  {
    if k > 0 {
      AddEights(x, k - 1);
      assert x + 8 * k == (x + 8 * (k - 1)) + 8;
    }
  }

  /** `name?.charAt(0)?.toUpperCase() || 'U'`: one character, 'U' for a missing or empty name. */
  function Initial(name: Option<string>): (r: string)
    ensures |r| == 1
    ensures (name.None? || name.value == "") ==> r == "U"
    ensures (name.Some? && name.value != "") ==> r[0] == Text.UpperChar(name.value[0])
  {
    if name.None? || name.value == "" then "U" else [Text.UpperChar(name.value[0])]
  }
}
