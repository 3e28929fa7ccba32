/** The pure decisions of the file readers: the compression-type codec, the
    classification of the `filter` and `ids` arguments, the bounds check on a
    tile index, and the parameters of the on-disk sorted merge. */
module ReadPbf {
  import opened Common
  import opened Elements
  import opened IdSetFilter

  // ---------------------------------------------------------------------
  // Compression type

  datatype CompressionType =
    | Uncompressed
    | Zlib
    | Brotli
    | Lzma
    | ZlibLevel(level: U32)
    | BrotliLevel(level: U32)
    | LzmaLevel(level: U32)

  /** The display name: the variant, with the level in brackets when it has one. */
  function CompressionTypeString(c: CompressionType): (s: string)
    ensures c.Uncompressed? ==> s == "Uncompressed"
    ensures c.Zlib? ==> s == "Zlib"
    ensures c.Brotli? ==> s == "Brotli"
    ensures c.Lzma? ==> s == "Lzma"
    ensures c.ZlibLevel? ==> s == "ZlibLevel(" + NatToString(c.level) + ")"
    ensures c.BrotliLevel? ==> s == "BrotliLevel(" + NatToString(c.level) + ")"
    ensures c.LzmaLevel? ==> s == "LzmaLevel(" + NatToString(c.level) + ")"
  {
    match c
    case Uncompressed => "Uncompressed"
    case Zlib => "Zlib"
    case Brotli => "Brotli"
    case Lzma => "Lzma"
    case ZlibLevel(l) => "ZlibLevel(" + NatToString(l) + ")"
    case BrotliLevel(l) => "BrotliLevel(" + NatToString(l) + ")"
    case LzmaLevel(l) => "LzmaLevel(" + NatToString(l) + ")"
  }

  /** Escaping of one character as Rust's `Debug` does it inside a string. */
  function DebugChar(c: char): (s: string)
    ensures |s| >= 1
    ensures c != '"' && c != '\\' && c != '\n' && c != '\r' && c != '\t' && c != '\0' ==> s == [c]
    ensures c == '"' ==> s == "\\\""
  {
    if c == '"' then "\\\""
    else if c == '\\' then "\\\\"
    else if c == '\n' then "\\n"
    else if c == '\r' then "\\r"
    else if c == '\t' then "\\t"
    else if c == '\0' then "\\0"
    else [c]
  }

  function DebugStr(s: string): (d: string)
    ensures |d| >= |s|
  {
    if s == [] then [] else DebugStr(s[..|s| - 1]) + DebugChar(s[|s| - 1])
  }

  /** The accepted names of `compression_type_from_string`. */
  predicate KnownCompressionName(name: string) {
    name == "Uncompressed" || name == "ZlibLevel" || name == "BrotliLevel" || name == "LzmaLevel"
  }

  /** Decodes the `(name, level)` pair a Python caller passes. */
  function CompressionTypeFromString(name: string, level: U32): (r: Result<CompressionType>)
    ensures r.Ok? <==> KnownCompressionName(name)
    ensures name == "Uncompressed" ==> r == Ok(Uncompressed)
    ensures name == "ZlibLevel" ==> r == Ok(ZlibLevel(level))
    ensures name == "BrotliLevel" ==> r == Ok(BrotliLevel(level))
    ensures name == "LzmaLevel" ==> r == Ok(LzmaLevel(level))
    ensures r.Err? ==> r.error == ValueError("(\"" + DebugStr(name) + "\", " + NatToString(level)
                                             + ") not an appropiate CompressionType input")
  {
    if name == "Uncompressed" then Ok(Uncompressed)
    else if name == "ZlibLevel" then Ok(ZlibLevel(level))
    else if name == "BrotliLevel" then Ok(BrotliLevel(level))
    else if name == "LzmaLevel" then Ok(LzmaLevel(level))
    else Err(ValueError("(\"" + DebugStr(name) + "\", " + NatToString(level)
                        + ") not an appropiate CompressionType input"))
  }

  /** Variant name and level: the pair that decodes back to the type. */
  function CompressionTypeArgs(c: CompressionType): (string, U32) {
    match c
    case Uncompressed => ("Uncompressed", 0)
    case Zlib => ("Zlib", 0)
    case Brotli => ("Brotli", 0)
    case Lzma => ("Lzma", 0)
    case ZlibLevel(l) => ("ZlibLevel", l)
    case BrotliLevel(l) => ("BrotliLevel", l)
    case LzmaLevel(l) => ("LzmaLevel", l)
  }

  /** Every type except the three bare ones can be written as a pair that
      decodes back to it; the bare ones cannot be decoded at all. */
  lemma CompressionArgsRoundTrip(c: CompressionType)
    ensures !(c.Zlib? || c.Brotli? || c.Lzma?) ==>
              CompressionTypeFromString(CompressionTypeArgs(c).0, CompressionTypeArgs(c).1) == Ok(c)
    ensures c.Zlib? || c.Brotli? || c.Lzma? ==>
              forall l: U32 :: !CompressionTypeFromString(CompressionTypeString(c), l).Ok?
  {
  }

  /** The display string is not an input of the decoder, except for
      "Uncompressed": the two functions are not a round trip. */
  lemma CompressionStringNotDecodable(c: CompressionType, l: U32)
    ensures CompressionTypeFromString(CompressionTypeString(c), l).Ok? <==> c == Uncompressed
  {
    var s := CompressionTypeString(c);
    if c.ZlibLevel? || c.BrotliLevel? || c.LzmaLevel? {
      var digits := NatToString(c.level);
      assert s[|s| - 1] == ')';
      assert !KnownCompressionName(s);
    }
  }

  lemma NatToStringInjective(a: nat, b: nat)
    requires NatToString(a) == NatToString(b)
    ensures a == b
  {
    assert DigitsValue(NatToString(a)) == a;
  }

  /** Exactly the display strings of the levelled types end in a bracket. */
  lemma LastCharOfString(c: CompressionType)
    ensures var s := CompressionTypeString(c);
      |s| >= 1 && (s[|s| - 1] == ')' <==> c.ZlibLevel? || c.BrotliLevel? || c.LzmaLevel?)
  {
  }

  /** Distinct compression types have distinct display strings. */
  lemma CompressionStringInjective(c: CompressionType, d: CompressionType)
    requires CompressionTypeString(c) == CompressionTypeString(d)
    ensures c == d
  {
    var s := CompressionTypeString(c);
    if c.ZlibLevel? || c.BrotliLevel? || c.LzmaLevel? {
      var prefix := if c.ZlibLevel? then "ZlibLevel(" else if c.BrotliLevel? then "BrotliLevel(" else "LzmaLevel(";
      var dc := NatToString(c.level);
      assert s == prefix + dc + ")";
      assert s[|s| - 1] == ')';
      assert d.ZlibLevel? || d.BrotliLevel? || d.LzmaLevel?;
      var prefix' := if d.ZlibLevel? then "ZlibLevel(" else if d.BrotliLevel? then "BrotliLevel(" else "LzmaLevel(";
      var dd := NatToString(d.level);
      assert s == prefix' + dd + ")";
      // The first character, then the digits between the brackets, decide.
      assert s[0] == prefix[0] == prefix'[0];
      assert prefix == prefix';
      assert s[|prefix|..|s| - 1] == dc;
      assert s[|prefix'|..|s| - 1] == dd;
      NatToStringInjective(c.level, d.level);
    } else {
      LastCharOfString(c);
      LastCharOfString(d);
    }
  }

  // ---------------------------------------------------------------------
  // The `filter` argument

  /** The shapes a Python `filter` argument can take: left out, `None`, a
      sequence of Python ints, a `Poly`, or anything else. */
  datatype FilterArg<P> = Absent | PyNone | IntList(values: seq<int>) | PolyArg(poly: P) | OtherArg

  /** What the reader is restricted to: whether it is the whole planet, the
      bounding box, and the optional polygon. */
  datatype Filter<P> = Filter(isPlanet: bool, bbox: Bbox, poly: Option<P>)

  predicate AllI32(vs: seq<int>) {
    forall i :: 0 <= i < |vs| ==> IsI32(vs[i])
  }

  /** `read_filter`. The planet box, the library's `Bbox::is_planet` and
      `Poly::bounds` are parameters. A list holding an int that does not fit
      `i32` fails the list extraction and then the polygon extraction. */
  function ReadFilter<P>(f: FilterArg<P>, planet: Bbox, isPlanet: Bbox -> bool, bounds: P -> Bbox)
    : (r: Result<Filter<P>>)
    ensures f.Absent? || f.PyNone? ==> r == Ok(Filter(true, planet, None))
    ensures f.IntList? && AllI32(f.values) && |f.values| == 4 ==>
              var bx := Bbox(f.values[0], f.values[1], f.values[2], f.values[3]);
              r == Ok(Filter(isPlanet(bx), bx, None))
    ensures f.IntList? && AllI32(f.values) && |f.values| != 4 ==> r == Err(ValueError("must be length 4"))
    ensures f.PolyArg? ==> r == Ok(Filter(false, bounds(f.poly), Some(f.poly)))
    ensures f.OtherArg? || (f.IntList? && !AllI32(f.values)) ==> r == Err(ValueError("can't handle filter"))
  {
    match f
    case Absent => Ok(Filter(true, planet, None))
    case PyNone => Ok(Filter(true, planet, None))
    case IntList(vs) =>
      if AllI32(vs) then
        if |vs| != 4 then Err(ValueError("must be length 4"))
        else
          var bx := Bbox(vs[0], vs[1], vs[2], vs[3]);
          Ok(Filter(isPlanet(bx), bx, None))
      else Err(ValueError("can't handle filter"))
    case PolyArg(p) => Ok(Filter(false, bounds(p), Some(p)))
    case OtherArg => Err(ValueError("can't handle filter"))
  }

  /** Whenever no polygon is kept, the planet flag is exactly what the box
      says (given that the planet box is itself the planet); a polygon
      always clears the flag. */
  lemma ReadFilterFlagAgrees<P>(f: FilterArg<P>, planet: Bbox, isPlanet: Bbox -> bool, bounds: P -> Bbox)
    requires isPlanet(planet)
    ensures var r := ReadFilter(f, planet, isPlanet, bounds);
      r.Ok? ==>
        && (r.value.poly.None? ==> r.value.isPlanet == isPlanet(r.value.bbox))
        && (r.value.poly.Some? ==> !r.value.isPlanet && r.value.bbox == bounds(r.value.poly.value))
  {
  }

  /** An int out of `i32` range is reported as an unusable filter, even when
      the list has the wrong length. */
  lemma ReadFilterRangeBeforeLength<P>(vs: seq<int>, planet: Bbox, isPlanet: Bbox -> bool, bounds: P -> Bbox)
    requires exists i :: 0 <= i < |vs| && !IsI32(vs[i])
    ensures ReadFilter(IntList(vs), planet, isPlanet, bounds) == Err(ValueError("can't handle filter"))
  {
  }

  // ---------------------------------------------------------------------
  // The `ids` argument

  /** The shapes an `ids` argument can take: `None`, an `IdSet` wrapping a
      library set of type `S`, an `IdSetSet`, or anything else. */
  datatype IdsArg<S> = NoIds | IdSetArg(inner: S) | IdSetSetArg(sets: IdSets) | OtherIds

  /** The filter handed to the library: accept everything, share the
      wrapped set, or use a copy of an `IdSetSet`'s four sets. */
  datatype IdFilter<S> = AcceptAll | Shared(inner: S) | Copied(sets: IdSets)

  /** `get_idset`. An `IdSetSet` is cloned, so later inserts into the Python
      object do not reach a filter already made. */
  function GetIdset<S>(ids: IdsArg<S>): (r: Result<IdFilter<S>>)
    ensures r.Err? <==> ids.OtherIds?
    ensures r.Err? ==> r.error == TypeError("didn't recogise ids")
    ensures ids.NoIds? ==> r == Ok(AcceptAll)
    ensures ids.IdSetArg? ==> r == Ok(Shared(ids.inner))
    ensures ids.IdSetSetArg? ==> r == Ok(Copied(ids.sets))
  {
    match ids
    case NoIds => Ok(AcceptAll)
    case IdSetArg(s) => Ok(Shared(s))
    case IdSetSetArg(sets) => Ok(Copied(sets))
    case OtherIds => Err(TypeError("didn't recogise ids"))
  }

  // ---------------------------------------------------------------------
  // Tile index

  /** The check in `get_fileblocks_at` and `index_at`, as written: a
      negative index is shifted by the length, then only an index below 0 or
      above the length is refused. The message shows the shifted index. */
  function TileIndexCheck(len: nat, idx: int): (r: Result<int>)
    ensures var adj := if idx < 0 then idx + len else idx;
      && (r.Ok? <==> 0 <= adj <= len)
      && (r.Ok? ==> r.value == adj)
      && (r.Err? ==> r.error == IndexError(IntToString(adj) + " out of range"))
  {
    var adj := if idx < 0 then idx + len else idx;
    if adj < 0 || adj > len then Err(IndexError(IntToString(adj) + " out of range")) else Ok(adj)
  }

  /** `index_at` as written: indexing with the checked index panics when it
      equals the length. */
  function IndexAt<T>(locs: seq<T>, idx: int): (r: Result<T>)
    ensures r == Err(Panic) <==> idx == |locs|
    ensures r.Ok? <==> PrepWhich(|locs|, idx).Ok?
    ensures r.Ok? ==> r.value == locs[PrepWhich(|locs|, idx).value]
  {
    match TileIndexCheck(|locs|, idx)
    case Err(e) => Err(e)
    case Ok(i) => if i < |locs| then Ok(locs[i]) else Err(Panic)
  }

  /** The off-by-one: the index equal to the length, and in particular 0 on
      an empty index, passes the check and panics, where the element
      accessors report an `IndexError`. */
  lemma TileIndexOffByOne<T>(locs: seq<T>)
    ensures TileIndexCheck(|locs|, |locs|) == Ok(|locs| as int)
    ensures IndexAt(locs, |locs|) == Err(Panic)
    ensures ElementAt(locs, |locs|).Err? && ElementAt(locs, |locs|).error.IndexError?
    ensures IndexAt<T>([], 0) == Err(Panic)
  {
    PrepWhichEmpty(0);
  }

  /** The check as intended: the length itself is out of range too. */
  function TileIndexCheckFixed(len: nat, idx: int): (r: Result<nat>)
    ensures r.Ok? ==> r.value < len
    ensures r.Err? ==> r.error.IndexError?
  {
    var adj := if idx < 0 then idx + len else idx;
    if adj < 0 || adj >= len then Err(IndexError(IntToString(adj) + " out of range")) else Ok(adj)
  }

  function IndexAtFixed<T>(locs: seq<T>, idx: int): (r: Result<T>)
    ensures r != Err(Panic)
  {
    match TileIndexCheckFixed(|locs|, idx)
    case Err(e) => Err(e)
    case Ok(i) => Ok(locs[i])
  }

  /** The intended check accepts exactly what `prep_which` accepts, with the
      same position, and never panics. */
  lemma TileIndexFixedMatchesPrepWhich<T>(locs: seq<T>, idx: int)
    ensures TileIndexCheckFixed(|locs|, idx).Ok? <==> PrepWhich(|locs|, idx).Ok?
    ensures TileIndexCheckFixed(|locs|, idx).Ok? ==>
              TileIndexCheckFixed(|locs|, idx).value == PrepWhich(|locs|, idx).value
    ensures IndexAtFixed(locs, idx).Ok? <==> ElementAt(locs, idx).Ok?
    ensures IndexAtFixed(locs, idx).Ok? ==> IndexAtFixed(locs, idx) == ElementAt(locs, idx)
  {
  }

  // ---------------------------------------------------------------------
  // Sorted merge to disk

  const FourGiB: nat := 4 * 1024 * 1024 * 1024

  /** The number of split files: 128 for the planet or an input of more than
      4 GiB, none otherwise. */
  function SortSplit(isPlanet: bool, totalBytes: nat): (f: nat)
    ensures f == 128 || f == 0
    ensures f == 128 <==> isPlanet || totalBytes > FourGiB
  {
    if isPlanet || totalBytes > FourGiB then 128 else 0
  }

  /** The temporary file prefix: the output name without its last four
      characters (its extension), followed by "-temp". A name shorter than
      four characters panics. */
  function TempFileName(outfn: string): (r: Result<string>)
    ensures r.Err? <==> |outfn| < 4
    ensures r.Err? ==> r.error == Panic
    ensures r.Ok? ==> |r.value| == |outfn| + 1 && r.value[..|outfn| - 4] == outfn[..|outfn| - 4]
    ensures r.Ok? ==> r.value[|outfn| - 4..] == "-temp"
  {
    if |outfn| < 4 then Err(Panic) else Ok(outfn[..|outfn| - 4] + "-temp")
  }

  /** For a name with any four-character extension (".pbf" in particular)
      the temporary name replaces that extension by "-temp", and it never
      coincides with the output name. */
  lemma TempFileNameOf(base: string, ext: string)
    requires |ext| == 4
    ensures TempFileName(base + ext) == Ok(base + "-temp")
  {
    var outfn := base + ext;
    assert outfn[..|outfn| - 4] == base;
  }

  lemma TempFileNameDiffers(outfn: string)
    ensures TempFileName(outfn).Ok? ==> TempFileName(outfn).value != outfn
  {
  }

  /** The number of objects per temporary file of the on-disk sort. */
  const SortLimit: nat := 1500000

  /** What a merge is asked to do once its arguments are decoded. */
  datatype MergePlan<S> =
    | Merge(ids: IdFilter<S>, ct: CompressionType)
    | SortInMemory(ids: IdFilter<S>, ct: CompressionType)
    | SortOnDisk(ids: IdFilter<S>, ct: CompressionType, tempfn: string, limit: nat, fsplit: nat)

  /** `write_merged`: the ids argument is decoded before the compression type. */
  function WriteMergedPlan<S>(ids: IdsArg<S>, ctName: string, ctLevel: U32): (r: Result<MergePlan<S>>)
    ensures r.Ok? <==> !ids.OtherIds? && KnownCompressionName(ctName)
    ensures ids.OtherIds? ==> r == Err(TypeError("didn't recogise ids"))
    ensures !ids.OtherIds? && !KnownCompressionName(ctName) ==>
              r == Err(CompressionTypeFromString(ctName, ctLevel).error)
    ensures r.Ok? ==> r.value == Merge(GetIdset(ids).value, CompressionTypeFromString(ctName, ctLevel).value)
  {
    match GetIdset(ids)
    case Err(e) => Err(e)
    case Ok(f) =>
      match CompressionTypeFromString(ctName, ctLevel)
      case Err(e) => Err(e)
      case Ok(ct) => Ok(Merge(f, ct))
  }

  /** `write_merged_sort`: ids, then compression type, then (on disk only)
      the temporary name, which panics for a short output name. */
  function WriteMergedSortPlan<S>(ids: IdsArg<S>, ctName: string, ctLevel: U32, inmem: bool,
                                  outfn: string, isPlanet: bool, totalBytes: nat)
    : (r: Result<MergePlan<S>>)
    ensures r.Ok? <==> !ids.OtherIds? && KnownCompressionName(ctName) && (inmem || |outfn| >= 4)
    ensures ids.OtherIds? ==> r == Err(TypeError("didn't recogise ids"))
    ensures !ids.OtherIds? && !KnownCompressionName(ctName) ==>
              r == Err(CompressionTypeFromString(ctName, ctLevel).error)
    ensures !ids.OtherIds? && KnownCompressionName(ctName) && !inmem && |outfn| < 4 ==> r == Err(Panic)
    ensures r.Ok? && inmem ==>
              r.value == SortInMemory(GetIdset(ids).value, CompressionTypeFromString(ctName, ctLevel).value)
    ensures r.Ok? && !inmem ==>
              r.value == SortOnDisk(GetIdset(ids).value, CompressionTypeFromString(ctName, ctLevel).value,
                                    TempFileName(outfn).value, SortLimit, SortSplit(isPlanet, totalBytes))
    ensures r.Ok? && !inmem ==> r.value.tempfn != outfn && r.value.tempfn[|outfn| - 4..] == "-temp"
  {
    match GetIdset(ids)
    case Err(e) => Err(e)
    case Ok(f) =>
      match CompressionTypeFromString(ctName, ctLevel)
      case Err(e) => Err(e)
      case Ok(ct) =>
        if inmem then Ok(SortInMemory(f, ct))
        else
          match TempFileName(outfn)
          case Err(e) => Err(e)
          case Ok(tempfn) => Ok(SortOnDisk(f, ct, tempfn, SortLimit, SortSplit(isPlanet, totalBytes)))
  }
}
