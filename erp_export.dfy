/** Export of one order to a file for an ERP system (Service/ErpExport.php). */
module ErpExport {
  import opened Php

  /** The three store settings the export reads; each is a string or unset. */
  datatype ErpConfig = ErpConfig(enabled: Option<string>, exportFormat: Option<string>, exportPath: Option<string>)

  const DefaultFormat := "csv"
  const DefaultPath := "b2b/erp/export"

  /** `(bool)` of the configured flag: unset, "" and "0" switch the export off,
      every other string switches it on. */
  predicate IsEnabled(cfg: ErpConfig)
    ensures IsEnabled(cfg) <==> cfg.enabled.Some? && cfg.enabled.value != "" && cfg.enabled.value != "0"
  {
    Truthy(cfg.enabled)
  }

  /** A falsy configured format falls back to csv; the result is never falsy. */
  function ExportFormat(cfg: ErpConfig): (format: string)
    ensures Truthy(Some(format))
    ensures format == (if Truthy(cfg.exportFormat) then cfg.exportFormat.value else DefaultFormat)
  {
    if Truthy(cfg.exportFormat) then cfg.exportFormat.value else DefaultFormat
  }

  /** A falsy configured path falls back to b2b/erp/export; the result is never falsy. */
  function ExportPath(cfg: ErpConfig): (path: string)
    ensures Truthy(Some(path))
    ensures path == (if Truthy(cfg.exportPath) then cfg.exportPath.value else DefaultPath)
  {
    if Truthy(cfg.exportPath) then cfg.exportPath.value else DefaultPath
  }

  // ---- The order aggregate, as far as the export reads it. Every value the
  // ---- export prints with %s (amounts and quantities included) is a string.

  datatype OrderItem = OrderItem(sku: string, name: string, qtyOrdered: string, price: string, rowTotal: string)

  datatype Address = Address(firstname: string, lastname: string, street: seq<string>, city: string,
                             postcode: string, countryId: string, telephone: string)

  datatype Order = Order(incrementId: string, customerEmail: string, customerName: string, createdAt: string,
                         status: string, grandTotal: string, orderCurrencyCode: string,
                         visibleItems: seq<OrderItem>, billingAddress: Option<Address>)

  // ---- The prepared record.

  datatype ItemRecord = ItemRecord(sku: string, name: string, qty: string, price: string, rowTotal: string)

  datatype AddressRecord = AddressRecord(firstname: string, lastname: string, street: string, city: string,
                                         postcode: string, country: string, telephone: string)

  datatype OrderRecord = OrderRecord(orderId: string, customerEmail: string, customerName: string,
                                     orderDate: string, status: string, grandTotal: string, currency: string,
                                     items: seq<ItemRecord>, billingAddress: Option<AddressRecord>)

  function ItemOf(item: OrderItem): ItemRecord
  {
    ItemRecord(item.sku, item.name, item.qtyOrdered, item.price, item.rowTotal)
  }

  function AddressOf(a: Address): AddressRecord
  {
    AddressRecord(a.firstname, a.lastname, Join(a.street, ", "), a.city, a.postcode, a.countryId, a.telephone)
  }

  /** One item entry per visible order item, in order. */
  function ItemsOf(items: seq<OrderItem>): (r: seq<ItemRecord>)
    ensures |r| == |items|
    ensures forall i :: 0 <= i < |items| ==> r[i] == ItemOf(items[i])
  {
    if items == [] then [] else [ItemOf(items[0])] + ItemsOf(items[1..])
  }

  /** The record `prepareOrderData` builds. */
  function RecordOf(order: Order): OrderRecord
  {
    OrderRecord(order.incrementId, order.customerEmail, order.customerName, order.createdAt, order.status,
                order.grandTotal, order.orderCurrencyCode, ItemsOf(order.visibleItems),
                if order.billingAddress.Some? then Some(AddressOf(order.billingAddress.value)) else None)
  }

  /** `prepareOrderData`: the order's header fields, one item entry per visible
      item in order, and a billing address entry exactly when the order has one,
      with its street lines joined by ", ". */
  method PrepareOrderData(order: Order) returns (data: OrderRecord)
    ensures data == RecordOf(order)
    ensures |data.items| == |order.visibleItems|
    ensures forall i :: 0 <= i < |data.items| ==> data.items[i] == ItemOf(order.visibleItems[i])
    ensures data.billingAddress.Some? <==> order.billingAddress.Some?
    ensures data.billingAddress.Some? ==> data.billingAddress.value.street == Join(order.billingAddress.value.street, ", ")
  {
    var items: seq<ItemRecord> := [];
    for i := 0 to |order.visibleItems|
      invariant |items| == i
      invariant forall k :: 0 <= k < i ==> items[k] == ItemOf(order.visibleItems[k])
    {
      items := items + [ItemOf(order.visibleItems[i])];
    }
    data := OrderRecord(order.incrementId, order.customerEmail, order.customerName, order.createdAt, order.status,
                        order.grandTotal, order.orderCurrencyCode, items, None);
    if order.billingAddress.Some? {
      data := data.(billingAddress := Some(AddressOf(order.billingAddress.value)));
    }
  }

  // ---- The CSV layout.

  const OrderColumns := ["Order ID", "Customer Email", "Customer Name", "Order Date", "Status", "Total", "Currency"]
  const ItemColumns := ["SKU", "Name", "Qty", "Price", "Row Total"]

  /** "Order ID,Customer Email,Customer Name,Order Date,Status,Total,Currency" */
  const OrderHeaderLine := Join(OrderColumns, ",")
  const ItemsTitleLine := "Order Items:"
  /** "SKU,Name,Qty,Price,Row Total" */
  const ItemHeaderLine := Join(ItemColumns, ",")

  /** `sprintf('"%s","%s",...', ...)`: every value between double quotes,
      separated by commas, with nothing escaped. */
  function QuotedRow(values: seq<string>): string
  {
    if values == [] then ""
    else if |values| == 1 then "\"" + values[0] + "\""
    else "\"" + values[0] + "\"," + QuotedRow(values[1..])
  }

  function HeaderValues(d: OrderRecord): seq<string>
  {
    [d.orderId, d.customerEmail, d.customerName, d.orderDate, d.status, d.grandTotal, d.currency]
  }

  function ItemValues(it: ItemRecord): seq<string>
  {
    [it.sku, it.name, it.qty, it.price, it.rowTotal]
  }

  /** One quoted line per item, in order. */
  function ItemRows(items: seq<ItemRecord>): (rows: seq<string>)
    ensures |rows| == |items|
    ensures forall i :: 0 <= i < |items| ==> rows[i] == QuotedRow(ItemValues(items[i]))
  {
    if items == [] then [] else [QuotedRow(ItemValues(items[0]))] + ItemRows(items[1..])
  }

  lemma {:induction false} ItemRowsSnoc(items: seq<ItemRecord>, it: ItemRecord)
    ensures ItemRows(items + [it]) == ItemRows(items) + [QuotedRow(ItemValues(it))]
  {
    if items != [] {
      assert (items + [it])[1..] == items[1..] + [it];
      ItemRowsSnoc(items[1..], it);
    } else {
      assert items + [it] == [it];
    }
  }

  /** The lines of the CSV text, in order: the fixed header, the quoted order
      values, an empty line, the items title, the item header, then one quoted
      line per item. */
  function CsvLines(d: OrderRecord): (lines: seq<string>)
    ensures |lines| == 5 + |d.items|
    ensures lines[..5] == [OrderHeaderLine, QuotedRow(HeaderValues(d)), "", ItemsTitleLine, ItemHeaderLine]
    ensures forall i :: 5 <= i < |lines| ==> lines[i] == QuotedRow(ItemValues(d.items[i - 5]))
  {
    [OrderHeaderLine, QuotedRow(HeaderValues(d)), "", ItemsTitleLine, ItemHeaderLine] + ItemRows(d.items)
  }

  /** Each line followed by a newline. */
  function Unlines(lines: seq<string>): string
  {
    if lines == [] then "" else lines[0] + "\n" + Unlines(lines[1..])
  }

  lemma {:induction false} UnlinesSnoc(lines: seq<string>, last: string)
    ensures Unlines(lines + [last]) == Unlines(lines) + last + "\n"
  {
    if lines != [] {
      assert (lines + [last])[1..] == lines[1..] + [last];
      UnlinesSnoc(lines[1..], last);
    }
  }

  /** The five fixed lines, the third one empty, as the text they join to. */
  lemma UnlinesPreamble(h: string, v: string, t: string, ih: string)
    ensures Unlines([h, v, "", t, ih]) == h + "\n" + v + "\n" + "\n" + t + "\n" + ih + "\n"
  {
    assert [ih][1..] == [];
    assert Unlines([ih]) == ih + "\n";
    assert [t, ih][1..] == [ih];
    assert Unlines([t, ih]) == t + "\n" + Unlines([ih]);
    assert ["", t, ih][1..] == [t, ih];
    assert Unlines(["", t, ih]) == "" + "\n" + Unlines([t, ih]);
    assert [v, "", t, ih][1..] == ["", t, ih];
    assert Unlines([v, "", t, ih]) == v + "\n" + Unlines(["", t, ih]);
    assert [h, v, "", t, ih][1..] == [v, "", t, ih];
    assert Unlines([h, v, "", t, ih]) == h + "\n" + Unlines([v, "", t, ih]);
  }

  /** Adding one item line to the CSV lines of a prefix of the items. */
  lemma CsvStep(fixed: seq<string>, items: seq<ItemRecord>, i: nat)
    requires i < |items|
    ensures Unlines(fixed + ItemRows(items[..i + 1]))
            == Unlines(fixed + ItemRows(items[..i])) + QuotedRow(ItemValues(items[i])) + "\n"
  {
    var row := QuotedRow(ItemValues(items[i]));
    assert items[..i + 1] == items[..i] + [items[i]];
    ItemRowsSnoc(items[..i], items[i]);
    assert fixed + ItemRows(items[..i + 1]) == (fixed + ItemRows(items[..i])) + [row];
    UnlinesSnoc(fixed + ItemRows(items[..i]), row);
  }

  /** `generateCsv`: the text is the CSV lines, each ended by a newline. */
  method GenerateCsv(data: OrderRecord) returns (csv: string)
    ensures csv == Unlines(CsvLines(data))
  {
    ghost var fixed := [OrderHeaderLine, QuotedRow(HeaderValues(data)), "", ItemsTitleLine, ItemHeaderLine];
    csv := OrderHeaderLine + "\n";
    csv := csv + QuotedRow(HeaderValues(data)) + "\n";
    csv := csv + "\n" + ItemsTitleLine + "\n";
    csv := csv + ItemHeaderLine + "\n";
    UnlinesPreamble(OrderHeaderLine, QuotedRow(HeaderValues(data)), ItemsTitleLine, ItemHeaderLine);
    assert data.items[..0] == [];
    assert fixed + ItemRows(data.items[..0]) == fixed;
    for i := 0 to |data.items|
      invariant csv == Unlines(fixed + ItemRows(data.items[..i]))
    {
      CsvStep(fixed, data.items, i);
      csv := csv + QuotedRow(ItemValues(data.items[i])) + "\n";
    }
    assert data.items[..|data.items|] == data.items;
  }

  /** The text split at its newlines, for text that ends with a newline or is empty. */
  function SplitLines(s: string): seq<string>
    decreases |s|
  {
    if s == [] then []
    else
      var k := FirstNewline(s);
      if k == |s| then [s] else [s[..k]] + SplitLines(s[k + 1..])
  }

  function FirstNewline(s: string): (k: nat)
    ensures k <= |s|
    ensures forall j :: 0 <= j < k ==> s[j] != '\n'
    ensures k < |s| ==> s[k] == '\n'
  {
    if s == [] then 0 else if s[0] == '\n' then 0 else 1 + FirstNewline(s[1..])
  }

  predicate NoNewline(s: string)
  {
    '\n' !in s
  }

  /** Lines without newlines are recovered exactly from their text. */
  lemma {:induction false} SplitUnlines(lines: seq<string>)
    requires forall l :: l in lines ==> NoNewline(l)
    ensures SplitLines(Unlines(lines)) == lines
  {
    if lines != [] {
      var s := Unlines(lines);
      var l := lines[0];
      assert s == l + "\n" + Unlines(lines[1..]);
      var k := FirstNewline(s);
      assert l in lines;
      assert s[|l|] == '\n';
      assert k == |l|;
      assert s[..k] == l;
      assert s[k + 1..] == Unlines(lines[1..]);
      assert forall x :: x in lines[1..] ==> x in lines;
      SplitUnlines(lines[1..]);
    }
  }

  lemma {:induction false} QuotedRowNoNewline(values: seq<string>)
    requires forall v :: v in values ==> NoNewline(v)
    ensures NoNewline(QuotedRow(values))
  {
    if values != [] {
      assert values[0] in values;
      assert NoNewline("\"") && NoNewline("\",");
    }
    if |values| > 1 {
      assert forall x :: x in values[1..] ==> x in values;
      QuotedRowNoNewline(values[1..]);
    }
  }

  lemma {:induction false} JoinNoNewline(parts: seq<string>, sep: string)
    requires NoNewline(sep) && forall p :: p in parts ==> NoNewline(p)
    ensures NoNewline(Join(parts, sep))
  {
    if parts != [] {
      assert parts[0] in parts;
    }
    if |parts| > 1 {
      assert forall x :: x in parts[1..] ==> x in parts;
      JoinNoNewline(parts[1..], sep);
    }
  }

  /** No value of the record contains a newline. */
  predicate SingleLineValues(d: OrderRecord)
  {
    && (forall v :: v in HeaderValues(d) ==> NoNewline(v))
    && (forall i :: 0 <= i < |d.items| ==> forall v :: v in ItemValues(d.items[i]) ==> NoNewline(v))
  }

  /** The three fixed lines hold no newline. */
  lemma FixedLinesSingle()
    ensures NoNewline(OrderHeaderLine) && NoNewline(ItemsTitleLine) && NoNewline(ItemHeaderLine)
  {
    assert forall c :: c in OrderColumns ==> NoNewline(c);
    assert forall c :: c in ItemColumns ==> NoNewline(c);
    JoinNoNewline(OrderColumns, ",");
    JoinNoNewline(ItemColumns, ",");
  }

  lemma {:induction false} ItemRowsSingle(items: seq<ItemRecord>)
    requires forall i :: 0 <= i < |items| ==> forall v :: v in ItemValues(items[i]) ==> NoNewline(v)
    ensures forall r :: r in ItemRows(items) ==> NoNewline(r)
  {
    if items != [] {
      QuotedRowNoNewline(ItemValues(items[0]));
      assert forall i :: 0 <= i < |items[1..]| ==> items[1..][i] == items[i + 1];
      ItemRowsSingle(items[1..]);
    }
  }

  lemma FiveSingle(a: string, b: string, c: string, e: string, f: string)
    requires NoNewline(a) && NoNewline(b) && NoNewline(c) && NoNewline(e) && NoNewline(f)
    ensures forall l :: l in [a, b, c, e, f] ==> NoNewline(l)
  {
  }

  lemma CsvLinesSingle(d: OrderRecord)
    requires SingleLineValues(d)
    ensures forall l :: l in CsvLines(d) ==> NoNewline(l)
  {
    var fixed := [OrderHeaderLine, QuotedRow(HeaderValues(d)), "", ItemsTitleLine, ItemHeaderLine];
    FixedLinesSingle();
    QuotedRowNoNewline(HeaderValues(d));
    FiveSingle(OrderHeaderLine, QuotedRow(HeaderValues(d)), "", ItemsTitleLine, ItemHeaderLine);
    ItemRowsSingle(d.items);
    assert CsvLines(d) == fixed + ItemRows(d.items);
  }

  /** When no value holds a newline, the CSV text has exactly 5 + |items|
      lines, and they are, in order, the CSV lines. */
  lemma CsvLineStructure(d: OrderRecord)
    requires SingleLineValues(d)
    ensures SplitLines(Unlines(CsvLines(d))) == CsvLines(d)
    ensures |SplitLines(Unlines(CsvLines(d)))| == 5 + |d.items|
  {
    CsvLinesSingle(d);
    SplitUnlines(CsvLines(d));
  }

  /** Values are not escaped: a value holding `","` prints the same line as
      the two values on either side of it. */
  lemma UnescapedValuesCollide()
    ensures QuotedRow(["a\",\"b"]) == QuotedRow(["a", "b"])
  {
  }

  // ---- The export itself.

  /** A step of the export that may raise an exception. */
  datatype Stage = Preparation | Serialization | Writing

  predicate KnownFormat(format: string)
  {
    format == "csv" || format == "xml" || format == "json"
  }

  /** `$exportPath . '/' . $incrementId . '.' . $format`. */
  /** The file lies under the configured path and carries the format as its extension. */
  function TargetPath(cfg: ErpConfig, order: Order): (path: string)
    ensures |path| == |ExportPath(cfg)| + |order.incrementId| + |ExportFormat(cfg)| + 2
    ensures path[..|ExportPath(cfg)| + 1] == ExportPath(cfg) + "/"
    ensures path[|ExportPath(cfg)| + 1..|path| - |ExportFormat(cfg)| - 1] == order.incrementId
    ensures path[|path| - |ExportFormat(cfg)| - 1..] == "." + ExportFormat(cfg)
  {
    var dir, ext := ExportPath(cfg) + "/", "." + ExportFormat(cfg);
    ThreeParts(dir, order.incrementId, ext);
    assert dir + order.incrementId + ext == ExportPath(cfg) + "/" + order.incrementId + "." + ExportFormat(cfg);
    dir + order.incrementId + ext
  }

  /** The three parts of a concatenation are its slices at the part lengths. */
  lemma ThreeParts(a: string, b: string, c: string)
    ensures (a + b + c)[..|a|] == a
    ensures (a + b + c)[|a|..|a| + |b|] == b
    ensures (a + b + c)[|a| + |b|..] == c
  {
  }

  /** Under one configuration, orders with different increment ids are
      exported to different files, so one export never overwrites another's. */
  lemma TargetPathsDistinct(cfg: ErpConfig, a: Order, b: Order)
    requires a.incrementId != b.incrementId
    ensures TargetPath(cfg, a) != TargetPath(cfg, b)
  {
    var pa, pb := TargetPath(cfg, a), TargetPath(cfg, b);
    assert pa[|ExportPath(cfg)| + 1..|pa| - |ExportFormat(cfg)| - 1] == a.incrementId;
    assert pb[|ExportPath(cfg)| + 1..|pb| - |ExportFormat(cfg)| - 1] == b.incrementId;
  }

  /** The file content for a known format; XML and JSON are produced by library serializers. */
  function Content(format: string, data: OrderRecord, toXml: OrderRecord -> string, toJson: OrderRecord -> string): string
    requires KnownFormat(format)
  {
    if format == "csv" then Unlines(CsvLines(data))
    else if format == "xml" then toXml(data)
    else toJson(data)
  }

  /** The var directory of the installation: file paths to their contents. */
  class VarDirectory {
    var files: map<string, string>

    constructor (files: map<string, string>)
      ensures this.files == files
    {
      this.files := files;
    }

    method WriteFile(path: string, content: string)
      modifies this
      ensures files == old(files)[path := content]
    {
      files := files[path := content];
    }
  }

  /** `exportOrder`: a disabled export, an unknown format or an exception in any
      step gives no path and writes nothing; otherwise the order's content in the
      configured format is written to the target path, which is returned. */
  method ExportOrder(cfg: ErpConfig, order: Order, toXml: OrderRecord -> string, toJson: OrderRecord -> string,
                     failure: Option<Stage>, dir: VarDirectory)
    returns (result: Option<string>)
    modifies dir
    ensures result.Some? <==> IsEnabled(cfg) && KnownFormat(ExportFormat(cfg)) && failure.None?
    ensures result.None? ==> dir.files == old(dir.files)
    ensures result.Some? ==>
              && result.value == TargetPath(cfg, order)
              && dir.files == old(dir.files)[result.value := Content(ExportFormat(cfg), RecordOf(order), toXml, toJson)]
  {
    if !IsEnabled(cfg) {
      return None;
    }
    var format := ExportFormat(cfg);
    var exportPath := ExportPath(cfg);
    var fullPath := exportPath + "/" + order.incrementId + "." + format;

    if failure == Some(Preparation) {
      return None;
    }
    var data := PrepareOrderData(order);
    var content;
    if format == "csv" {
      content := GenerateCsv(data);
    } else if format == "xml" {
      content := toXml(data);
    } else if format == "json" {
      content := toJson(data);
    } else {
      return None;
    }
    if failure.Some? {
      return None;
    }
    dir.WriteFile(fullPath, content);
    return Some(fullPath);
  }
}
