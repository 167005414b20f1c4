/**
 * Loading the stock from the lines of a comma-separated file whose first
 * line is a header. Reading the file is left to the caller: the methods here
 * take its lines.
 */
module InventoryLoader {
  import opened JavaInt
  import opened Wrappers
  import opened Products
  import opened InventoryBalances
  import JavaText

  /**
   * What loading `rows` adds to the inventory `acc`: each row's product filed
   * under its hash code, a later one replacing an earlier one with the same
   * hash, and nothing from the first row that fails or after it (the
   * exception ends the loop).
   */
  function LoadRows(rows: seq<string>, acc: map<Int32, ProductState>): (r: map<Int32, ProductState>)
    decreases |rows|
  {
    if rows == [] then acc
    else match ProductFromLine(rows[0])
      case Failure(_) => acc
      case Success(s) => LoadRows(rows[1..], acc[HashOf(s.brand, s.name) := s])
  }

  /** One step of `LoadRows`: a failing first row ends the load, a good one is filed. */
  lemma LoadRowsStep(rows: seq<string>, acc: map<Int32, ProductState>)
    requires rows != []
    ensures ProductFromLine(rows[0]).Failure? ==> LoadRows(rows, acc) == acc
    ensures ProductFromLine(rows[0]).Success? ==>
              var s := ProductFromLine(rows[0]).value;
              LoadRows(rows, acc) == LoadRows(rows[1..], acc[HashOf(s.brand, s.name) := s])
  {
  }

  /** The inventory that `createInventoryBalanceFromTextFile` makes of a file's lines. */
  function Loaded(lines: seq<string>): (r: map<Int32, ProductState>)
  {
    if |lines| <= 1 then map[] else LoadRows(lines[1..], map[])
  }

  /** Every product filed by a load is valid and filed under its own hash. */
  predicate WellFiled(m: map<Int32, ProductState>)
  {
    forall k :: k in m ==> ValidState(m[k]) && HashOf(m[k].brand, m[k].name) == k
  }

  /**
   * One pass of the loading loop: the line's product is added, filed under
   * its hash, or the line fails and the inventory is left as it was.
   */
  method LoadRow(ib: InventoryBalance, line: string) returns (ok: bool)
    requires ib.Valid()
    modifies ib
    ensures ib.Valid()
    ensures ok <==> ProductFromLine(line).Success?
    ensures !ok ==> ib.Contents() == old(ib.Contents())
    ensures ok ==>
              var s := ProductFromLine(line).value;
              ib.Contents() == old(ib.Contents())[HashOf(s.brand, s.name) := s]
  {
    var r := CreateProductFromString(JavaText.JavaSplit(line, ','));
    if r.Failure? {
      return false;
    }
    var p := r.value;
    assert p.HashCode() == HashOf(p.State().brand, p.State().name) by {
      assert p.HashMatches();
    }
    ib.AddProduct(p);
    return true;
  }

  /** The loading loop: adds the rows' products until the first failing row. */
  method LoadRowsInto(ib: InventoryBalance, rows: seq<string>)
    requires ib.Valid()
    modifies ib
    ensures ib.Valid()
    ensures ib.Contents() == LoadRows(rows, old(ib.Contents()))
  {
    ghost var start := ib.Contents();
    var i := 0;
    while i < |rows|
      invariant 0 <= i <= |rows|
      invariant ib.Valid()
      invariant LoadRows(rows[i..], ib.Contents()) == LoadRows(rows, start)
      decreases |rows| - i
    {
      ghost var before := ib.Contents();
      var ok := LoadRow(ib, rows[i]);
      if !ok {
        assert LoadRows(rows[i..], before) == before by {
          LoadRowsStep(rows[i..], before);
          assert rows[i..][0] == rows[i];
        }
        break;
      }
      assert LoadRows(rows[i + 1..], ib.Contents()) == LoadRows(rows[i..], before) by {
        LoadRowsStep(rows[i..], before);
        assert rows[i..][0] == rows[i] && rows[i..][1..] == rows[i + 1..];
      }
      i := i + 1;
    }
  }

  /** `createInventoryBalanceFromTextFile`, on the file's lines. */
  method CreateInventoryBalanceFromLines(lines: seq<string>) returns (ib: InventoryBalance)
    ensures fresh(ib) && ib.Valid()
    ensures ib.Contents() == Loaded(lines)
  {
    ib := new InventoryBalance();
    if |lines| > 1 {
      LoadRowsInto(ib, lines[1..]);
    }
  }

  /**
   * `createSingleProductFromTextFile`, on the file's lines: the product of
   * the line after the header, or null when there is no such line or it
   * does not make a product.
   */
  method CreateSingleProductFromLines(lines: seq<string>) returns (p: Product?)
    ensures p == null <==> |lines| < 2 || ProductFromLine(lines[1]).Failure?
    ensures p != null ==>
              fresh(p) && p.Valid() && p.HashMatches() && p.State() == ProductFromLine(lines[1]).value
  {
    if |lines| < 2 {
      return null;
    }
    var r := CreateProductFromString(JavaText.JavaSplit(lines[1], ','));
    if r.Failure? {
      return null;
    }
    return r.value;
  }

  // ------------------------------------------------------------ properties

  /** A file with no line after the header gives an empty inventory. */
  lemma HeaderOnlyIsEmpty(lines: seq<string>)
    requires |lines| <= 1
    ensures Loaded(lines) == map[]
  {
  }

  /** Loading keeps every filed product valid and under its own hash. */
  lemma {:induction false} LoadRowsWellFiled(rows: seq<string>, acc: map<Int32, ProductState>)
    requires WellFiled(acc)
    ensures WellFiled(LoadRows(rows, acc))
    decreases |rows|
  {
    if rows != [] {
      match ProductFromLine(rows[0])
      case Failure(_) =>
      case Success(s) =>
        LoadRowsWellFiled(rows[1..], acc[HashOf(s.brand, s.name) := s]);
    }
  }

  /** Every product in a loaded inventory is valid and filed under its own hash. */
  lemma LoadedWellFiled(lines: seq<string>)
    ensures WellFiled(Loaded(lines))
  {
    if |lines| > 1 {
      LoadRowsWellFiled(lines[1..], map[]);
    }
  }

  /** Loading rows never removes a key: a product is only ever replaced. */
  lemma {:induction false} LoadRowsKeepsKeys(rows: seq<string>, acc: map<Int32, ProductState>)
    ensures acc.Keys <= LoadRows(rows, acc).Keys
    decreases |rows|
  {
    if rows != [] {
      match ProductFromLine(rows[0])
      case Failure(_) =>
      case Success(s) =>
        LoadRowsKeepsKeys(rows[1..], acc[HashOf(s.brand, s.name) := s]);
    }
  }

  /** Nothing after a failing row is loaded. */
  lemma {:induction false} LoadRowsStopsAtFailure(rows: seq<string>, acc: map<Int32, ProductState>, j: nat)
    requires j < |rows| && ProductFromLine(rows[j]).Failure?
    ensures LoadRows(rows, acc) == LoadRows(rows[..j], acc)
    decreases |rows|
  {
    if j > 0 {
      match ProductFromLine(rows[0])
      case Failure(_) =>
        assert rows[..j][0] == rows[0];
      case Success(s) =>
        assert rows[..j][1..] == rows[1..][..j - 1];
        LoadRowsStopsAtFailure(rows[1..], acc[HashOf(s.brand, s.name) := s], j - 1);
    }
  }

  /**
   * Loading stops at the first line that does not make a product: the lines
   * from there on make no difference, whatever they hold.
   */
  lemma StopsAtFirstFailure(lines: seq<string>, k: nat, rest: seq<string>)
    requires 1 <= k < |lines| && ProductFromLine(lines[k]).Failure?
    ensures Loaded(lines) == Loaded(lines[..k])
    ensures Loaded(lines[..k + 1] + rest) == Loaded(lines[..k])
  {
    LoadedStopsAt(lines, k);
    var other := lines[..k + 1] + rest;
    assert other[k] == lines[k] && other[..k] == lines[..k];
    LoadedStopsAt(other, k);
  }

  /** A load equals that of the lines before its first failing line. */
  lemma LoadedStopsAt(lines: seq<string>, k: nat)
    requires 1 <= k < |lines| && ProductFromLine(lines[k]).Failure?
    ensures Loaded(lines) == Loaded(lines[..k])
  {
    var head := lines[..k][1..];
    assert Loaded(lines[..k]) == LoadRows(head, map[]) by {
      LoadedAfterHeader(lines[..k]);
    }
    assert LoadRows(lines[1..], map[]) == LoadRows(head, map[]) by {
      LoadRowsStopsAtFailure(lines[1..], map[], k - 1);
      assert lines[1..][..k - 1] == head;
    }
    LoadedAfterHeader(lines);
  }

  /** Past a header line, the load is that of the remaining rows. */
  lemma LoadedAfterHeader(lines: seq<string>)
    requires |lines| >= 1
    ensures Loaded(lines) == LoadRows(lines[1..], map[])
  {
  }

  /** One more line at the end, after lines that all load, files its product on top. */
  lemma {:induction false} LoadRowsAppend(rows: seq<string>, acc: map<Int32, ProductState>, row: string)
    requires forall i :: 0 <= i < |rows| ==> ProductFromLine(rows[i]).Success?
    ensures LoadRows(rows + [row], acc) ==
              match ProductFromLine(row)
              case Failure(_) => LoadRows(rows, acc)
              case Success(s) => LoadRows(rows, acc)[HashOf(s.brand, s.name) := s]
    decreases |rows|
  {
    if rows == [] {
      assert [row][1..] == [];
    } else {
      assert (rows + [row])[1..] == rows[1..] + [row];
      match ProductFromLine(rows[0])
      case Success(s) =>
        LoadRowsAppend(rows[1..], acc[HashOf(s.brand, s.name) := s], row);
    }
  }

  /**
   * When every line after the header makes a product, a product of a new
   * last line replaces any product filed under the same hash and leaves the
   * others as they were; a last line that fails adds nothing.
   */
  lemma LastLineWins(lines: seq<string>, row: string)
    requires |lines| >= 1
    requires forall i :: 1 <= i < |lines| ==> ProductFromLine(lines[i]).Success?
    ensures ProductFromLine(row).Success? ==>
              var s := ProductFromLine(row).value;
              Loaded(lines + [row]) == Loaded(lines)[HashOf(s.brand, s.name) := s]
    ensures ProductFromLine(row).Failure? ==> Loaded(lines + [row]) == Loaded(lines)
  {
    assert (lines + [row])[1..] == lines[1..] + [row];
    forall i | 0 <= i < |lines[1..]|
      ensures ProductFromLine(lines[1..][i]).Success?
    {
      assert lines[1..][i] == lines[i + 1];
    }
    LoadRowsAppend(lines[1..], map[], row);
  }

  /**
   * A row whose price or amount is not positive, or whose discount is
   * negative, makes no product, and so ends the load.
   */
  lemma RejectedRows(values: seq<string>)
    requires DecodeRow(values).Success?
    ensures DecodeRow(values).value.price <= 0 ==> ProductFromValues(values) == Failure(Rejected(PriceInvalid))
    ensures DecodeRow(values).value.price > 0 && DecodeRow(values).value.amount <= 0 ==>
              ProductFromValues(values) == Failure(Rejected(AmountInvalid))
    ensures DecodeRow(values).value.price > 0 && DecodeRow(values).value.amount > 0 &&
            DecodeRow(values).value.discount < 0 ==>
              ProductFromValues(values) == Failure(Rejected(DiscountInvalid))
  {
  }
}
