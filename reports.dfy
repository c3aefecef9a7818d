/** The pieces the plain-text reports are built from. */
module Reports {

  /** `c * n` for a one-character string `c`. */
  function Repeat(c: char, n: nat): string {
    if n == 0 then "" else [c] + Repeat(c, n - 1)
  }

  /** One block of text per item, in order. */
  function Blocks<T>(items: seq<T>, block: T -> string): string {
    if items == [] then "" else block(items[0]) + Blocks(items[1..], block)
  }

  /** The blocks of two runs of items are the blocks of the first run, then those of the second. */
  lemma {:induction false} BlocksAppend<T>(a: seq<T>, b: seq<T>, block: T -> string)
    ensures Blocks(a + b, block) == Blocks(a, block) + Blocks(b, block)
  {
    if a == [] {
      assert a + b == b;
    } else {
      assert (a + b)[1..] == a[1..] + b;
      BlocksAppend(a[1..], b, block);
    }
  }

  /** A plain-text report: a header, then one block per item, in order. */
  function Report<T>(header: string, items: seq<T>, block: T -> string): string {
    header + Blocks(items, block)
  }

  lemma ReportEmpty<T>(header: string, block: T -> string)
    ensures Report(header, [], block) == header
  {
    assert header + "" == header;
  }

  /** One more item extends the report by exactly that item's block. */
  lemma ReportAppend<T>(header: string, items: seq<T>, item: T, block: T -> string)
    ensures Report(header, items + [item], block) == Report(header, items, block) + block(item)
  {
    BlocksAppend(items, [item], block);
    assert [item][1..] == [];
  }

  /** The report on the first `i + 1` items extends the one on the first `i` by one block. */
  lemma ReportPrefix<T>(header: string, items: seq<T>, i: nat, block: T -> string)
    requires i < |items|
    ensures Report(header, items[..i + 1], block) == Report(header, items[..i], block) + block(items[i])
  {
    ReportAppend(header, items[..i], items[i], block);
    assert items[..i + 1] == items[..i] + [items[i]];
  }
}
