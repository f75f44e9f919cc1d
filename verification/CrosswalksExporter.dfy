/**
 * The crosswalk exporter: one surface label per crosswalk of the road map, with
 * a label id derived from a CRC of its vertices and a fixed attribute list.
 * The CRC itself (`FCrc::MemCrc32` over the float bytes), JSON serialisation
 * and the file write are not part of this model.
 */
module CrosswalksExporter {
  import opened Wrappers
  import opened CosmosCommon

  // ---------------------------------------------------------------- label id

  function Pow16(width: nat): (p: nat)
    ensures p > 0
  {
    if width == 0 then 1 else 16 * Pow16(width - 1)
  }

  /** The characters `%x` writes: the lower-case hexadecimal digits. */
  predicate IsHexDigit(c: char) { '0' <= c <= '9' || 'a' <= c <= 'f' }

  /** A text made only of lower-case hexadecimal digits. */
  predicate HexText(s: string) { forall i :: 0 <= i < |s| ==> IsHexDigit(s[i]) }

  /** A lower-case hexadecimal digit. */
  function HexDigit(d: nat): (c: char)
    requires d < 16
    ensures IsHexDigit(c) && DigitValue(c) == d
  {
    if d < 10 then (48 + d) as char else (87 + d) as char
  }

  function DigitValue(c: char): nat
  {
    if '0' <= c <= '9' then c as nat - 48
    else if 'a' <= c <= 'f' then c as nat - 87
    else 0
  }

  /** `%0<width>x`: the low `width` hexadecimal digits of `n`, zero padded. */
  function Hex(n: nat, width: nat): (r: string)
    ensures |r| == width && HexText(r)
  {
    if width == 0 then [] else Hex(n / 16, width - 1) + [HexDigit(n % 16)]
  }

  /** The number a run of hexadecimal digits denotes. */
  function HexValue(s: string): nat
  {
    if s == [] then 0 else HexValue(s[..|s| - 1]) * 16 + DigitValue(s[|s| - 1])
  }

  /** A number that fits in `width` digits is read back from its `Hex` text. */
  lemma {:induction false} HexRoundTrip(n: nat, width: nat)
    requires n < Pow16(width)
    ensures HexValue(Hex(n, width)) == n
  {
    if width > 0 {
      HexRoundTrip(n / 16, width - 1);
      var h := Hex(n, width);
      assert h[..|h| - 1] == Hex(n / 16, width - 1);
      assert DigitValue(HexDigit(n % 16)) == n % 16;
    }
  }

  /** Dividing a digit off the end of a number. */
  lemma SplitLastDigit(a: nat, d: nat)
    requires d < 16
    ensures (a * 16 + d) / 16 == a && (a * 16 + d) % 16 == d
  {
  }

  /** Hexadecimal text of a given width is fixed by the number it denotes. */
  lemma {:induction false} HexTextDetermined(s: string, t: string)
    requires HexText(s) && HexText(t) && |s| == |t| && HexValue(s) == HexValue(t)
    ensures s == t
  {
    if s != [] {
      var s', t' := s[..|s| - 1], t[..|t| - 1];
      var c, d := s[|s| - 1], t[|t| - 1];
      assert IsHexDigit(c) && IsHexDigit(d);
      SplitLastDigit(HexValue(s'), DigitValue(c));
      SplitLastDigit(HexValue(t'), DigitValue(d));
      assert DigitValue(c) == DigitValue(d) && HexValue(s') == HexValue(t');
      assert HexText(s') && HexText(t');
      HexTextDetermined(s', t');
      assert s == s' + [c] && t == t' + [d];
    }
  }

  /** A 32-bit word as a number. */
  function Word(x: bv32): (n: nat)
    ensures n < 0x1_0000_0000
  {
    x as nat
  }

  /** `%08x` of a 32-bit value. */
  function Hex8(n: nat): (r: string)
    requires n < 0x1_0000_0000
    ensures |r| == 8 && HexText(r) && HexValue(r) == n
  {
    assert Pow16(8) == 0x1_0000_0000;
    HexRoundTrip(n, 8);
    Hex(n, 8)
  }

  /** The CRC the label id is built from: 0 for no vertices. */
  function LabelCrc(vertices: seq<Vec3>, memCrc32: seq<Vec3> -> bv32): bv32
  {
    if |vertices| > 0 then memCrc32(vertices) else 0
  }

  const LabelIdPrefix: string := "mads:000:"
  const LabelIdSuffix: string := ":000000"

  /** The four words of the id: crc, crc xor 0xA5A5A5A5, crc * 2654435761 (wrapping) and not crc. */
  function IdWords(c: bv32): (w: seq<nat>)
    ensures |w| == 4 && w[0] < 0x1_0000_0000 && w[1] < 0x1_0000_0000
    ensures w[2] < 0x1_0000_0000 && w[3] < 0x1_0000_0000
  {
    [Word(c), Word(c ^ 0xA5A5A5A5), WrappingProduct(Word(c), 2654435761), Word(!c)]
  }

  /** `uint32` multiplication: the product modulo 2^32. */
  function WrappingProduct(a: nat, b: nat): (r: nat)
    ensures r < 0x1_0000_0000
  {
    (a * b) % 0x1_0000_0000
  }

  /**
   * `MakeStableLabelId`: the prefix, the four words of `IdWords` in
   * hexadecimal, and the `%06u` of 0. The uuid is not used.
   */
  function MakeStableLabelId(uuid: string, vertices: seq<Vec3>, memCrc32: seq<Vec3> -> bv32): (id: string)
    ensures |id| == 48
    ensures id[..9] == LabelIdPrefix && id[41..] == LabelIdSuffix
    ensures var w := IdWords(LabelCrc(vertices, memCrc32));
            HexValue(id[9..17]) == w[0] && HexValue(id[17..25]) == w[1]
            && HexValue(id[25..33]) == w[2] && HexValue(id[33..41]) == w[3]
    ensures HexText(id[9..41])
  {
    var w := IdWords(LabelCrc(vertices, memCrc32));
    var hex := Hex8(w[0]) + Hex8(w[1]) + Hex8(w[2]) + Hex8(w[3]);
    IdLayout(Hex8(w[0]), Hex8(w[1]), Hex8(w[2]), Hex8(w[3]));
    assert HexText(hex);
    // `Hex.Mid(0, 32)` keeps all 32 digits.
    LabelIdPrefix + hex[0..32] + LabelIdSuffix
  }

  /** Where the four hexadecimal words sit in the id. */
  lemma IdLayout(h0: string, h1: string, h2: string, h3: string)
    requires |h0| == 8 && |h1| == 8 && |h2| == 8 && |h3| == 8
    ensures var hex := h0 + h1 + h2 + h3;
            var id := LabelIdPrefix + hex[0..32] + LabelIdSuffix;
            |id| == 48 && id[..9] == LabelIdPrefix && id[41..] == LabelIdSuffix
            && id[9..17] == h0 && id[17..25] == h1 && id[25..33] == h2 && id[33..41] == h3
            && id[9..41] == hex
  {
    var hex := h0 + h1 + h2 + h3;
    assert hex[0..32] == hex;
    var id := LabelIdPrefix + hex + LabelIdSuffix;
    assert id == LabelIdPrefix + h0 + h1 + h2 + h3 + LabelIdSuffix;
  }

  /** Two vertex lists get the same label id only when their CRCs agree. */
  lemma LabelIdDeterminesCrc(u1: string, v1: seq<Vec3>, u2: string, v2: seq<Vec3>, memCrc32: seq<Vec3> -> bv32)
    requires MakeStableLabelId(u1, v1, memCrc32) == MakeStableLabelId(u2, v2, memCrc32)
    ensures LabelCrc(v1, memCrc32) == LabelCrc(v2, memCrc32)
  {
    var id := MakeStableLabelId(u1, v1, memCrc32);
    var c1, c2 := LabelCrc(v1, memCrc32), LabelCrc(v2, memCrc32);
    assert HexValue(id[9..17]) == IdWords(c1)[0] == Word(c1);
    assert HexValue(id[9..17]) == IdWords(c2)[0] == Word(c2);
    WordInjective(c1, c2);
  }

  /** Two ids whose hex middles hold the same number in one 8-digit window agree on that window. */
  lemma SameWindow(id: string, m: string, i: nat)
    requires |id| == 48 && |m| == 48 && 9 <= i && i + 8 <= 41
    requires HexText(id[9..41]) && HexText(m[9..41]) && HexValue(id[i..i + 8]) == HexValue(m[i..i + 8])
    ensures id[i..i + 8] == m[i..i + 8]
  {
    var a, b := id[i..i + 8], m[i..i + 8];
    forall k | 0 <= k < 8
      ensures IsHexDigit(a[k]) && IsHexDigit(b[k])
    {
      assert a[k] == id[9..41][i - 9 + k];
      assert b[k] == m[9..41][i - 9 + k];
    }
    HexTextDetermined(a, b);
  }

  /** A 48-character id is its prefix, its four words and its suffix. */
  lemma IdPieces(s: string)
    requires |s| == 48
    ensures s == s[..9] + s[9..17] + s[17..25] + s[25..33] + s[33..41] + s[41..]
  {
  }

  /**
   * The contract of `MakeStableLabelId` leaves no freedom: a 48-character
   * text with that prefix and suffix whose 32 middle characters are hex
   * digits reading back as the four words is the label id, whatever the uuid.
   */
  lemma LabelIdFixedByCrc(id: string, uuid: string, vertices: seq<Vec3>, memCrc32: seq<Vec3> -> bv32)
    requires |id| == 48 && id[..9] == LabelIdPrefix && id[41..] == LabelIdSuffix && HexText(id[9..41])
    requires var w := IdWords(LabelCrc(vertices, memCrc32));
             HexValue(id[9..17]) == w[0] && HexValue(id[17..25]) == w[1]
             && HexValue(id[25..33]) == w[2] && HexValue(id[33..41]) == w[3]
    ensures id == MakeStableLabelId(uuid, vertices, memCrc32)
  {
    var m := MakeStableLabelId(uuid, vertices, memCrc32);
    SameWindow(id, m, 9);
    SameWindow(id, m, 17);
    SameWindow(id, m, 25);
    SameWindow(id, m, 33);
    IdPieces(id);
    IdPieces(m);
  }

  lemma WordInjective(a: bv32, b: bv32)
    requires Word(a) == Word(b)
    ensures a == b
  {
    assert a == Word(a) as bv32;
    assert b == Word(b) as bv32;
  }

  // ---------------------------------------------------------------- attributes

  /** The attribute names, declared in the order they are written. */
  datatype AttrName = CoordinateFrame | Timestamp | AssetRef | FeatureId | FeatureVersion
                    | ClipVersionId | LabelName | Type | IsImplicit

  /** The `name` field of an attribute. */
  function NameText(n: AttrName): string
  {
    match n
    case CoordinateFrame => "coordinate_frame"
    case Timestamp => "timestamp"
    case AssetRef => "asset_ref"
    case FeatureId => "feature_id"
    case FeatureVersion => "feature_version"
    case ClipVersionId => "clip_version_id"
    case LabelName => "label_name"
    case Type => "type"
    case IsImplicit => "is_implicit"
  }

  /** The position of a name in the writing order. */
  function Rank(n: AttrName): nat
  {
    match n
    case CoordinateFrame => 0
    case Timestamp => 1
    case AssetRef => 2
    case FeatureId => 3
    case FeatureVersion => 4
    case ClipVersionId => 5
    case LabelName => 6
    case Type => 7
    case IsImplicit => 8
  }

  datatype Attribute =
    | TextAttribute(name: AttrName, text: string)
    | EnumAttribute(name: AttrName, value: string)
    | FlagAttribute(name: AttrName, flag: bool)

  /** The strings and flag `AppendCrosswalkLabel` is given. */
  datatype LabelConfig = LabelConfig(
    sensorName: string, labelClassNamespace: string, labelClassIdentifier: string,
    labelClassVersion: string, coordinateFrame: string, labelNameEnum: string,
    typeText: string, isImplicit: bool, assetRefUri: string, featureId: string,
    featureVersion: string, clipVersionId: string)

  /** The values `ExportCosmosCrosswalk` passes; the four optional texts are empty. */
  const CrosswalkConfig: LabelConfig := LabelConfig(
    "lidar_gt_top_p128", "minimap", "crosswalks:autolabels", "v0", "rig", "crosswalk",
    "PEDESTRIAN", false, "", "", "", "")

  /** The text attributes, each with the text it is given. */
  function TextFields(cfg: LabelConfig, startTs: string): seq<(AttrName, string)>
  {
    [(CoordinateFrame, cfg.coordinateFrame), (Timestamp, startTs), (AssetRef, cfg.assetRefUri),
     (FeatureId, cfg.featureId), (FeatureVersion, cfg.featureVersion),
     (ClipVersionId, cfg.clipVersionId), (Type, cfg.typeText)]
  }

  /** `AddAttrText`: a text attribute is added only when its text is not empty. */
  function AddAttrText(attrs: seq<Attribute>, name: AttrName, text: string): seq<Attribute>
  {
    if text == [] then attrs else attrs + [TextAttribute(name, text)]
  }

  /** The attribute list of a label. */
  function Attributes(cfg: LabelConfig, startTs: string): seq<Attribute>
  {
    var a := AddAttrText([], CoordinateFrame, cfg.coordinateFrame);
    var a := AddAttrText(a, Timestamp, startTs);
    var a := AddAttrText(a, AssetRef, cfg.assetRefUri);
    var a := AddAttrText(a, FeatureId, cfg.featureId);
    var a := AddAttrText(a, FeatureVersion, cfg.featureVersion);
    var a := AddAttrText(a, ClipVersionId, cfg.clipVersionId);
    var a := a + [EnumAttribute(LabelName, cfg.labelNameEnum)];
    var a := AddAttrText(a, Type, cfg.typeText);
    a + [FlagAttribute(IsImplicit, cfg.isImplicit)]
  }

  /** The attribute block of `AppendCrosswalkLabel`. */
  method BuildAttributes(cfg: LabelConfig, startTs: string) returns (attrs: seq<Attribute>)
    ensures attrs == Attributes(cfg, startTs)
  {
    attrs := [];
    attrs := AddAttrText(attrs, CoordinateFrame, cfg.coordinateFrame);
    attrs := AddAttrText(attrs, Timestamp, startTs);
    attrs := AddAttrText(attrs, AssetRef, cfg.assetRefUri);
    attrs := AddAttrText(attrs, FeatureId, cfg.featureId);
    attrs := AddAttrText(attrs, FeatureVersion, cfg.featureVersion);
    attrs := AddAttrText(attrs, ClipVersionId, cfg.clipVersionId);
    attrs := attrs + [EnumAttribute(LabelName, cfg.labelNameEnum)];
    attrs := AddAttrText(attrs, Type, cfg.typeText);
    attrs := attrs + [FlagAttribute(IsImplicit, cfg.isImplicit)];
  }

  /** Attributes appear in writing order, each name at most once. */
  predicate InWritingOrder(attrs: seq<Attribute>)
  {
    forall i, j :: 0 <= i < j < |attrs| ==> Rank(attrs[i].name) < Rank(attrs[j].name)
  }

  /** Appending an attribute that ranks after every attribute so far keeps the order. */
  lemma AppendOrdered(attrs: seq<Attribute>, a: Attribute)
    requires InWritingOrder(attrs)
    requires forall b :: b in attrs ==> Rank(b.name) < Rank(a.name)
    ensures InWritingOrder(attrs + [a])
  {
    var r := attrs + [a];
    forall i, j | 0 <= i < j < |r|
      ensures Rank(r[i].name) < Rank(r[j].name)
    {
      assert r[i] in attrs;
      if j < |attrs| {
        assert r[j] == attrs[j];
      }
    }
  }

  /** Every attribute of the list ranks below `bound`. */
  predicate RanksBelow(attrs: seq<Attribute>, bound: nat)
  {
    forall b :: b in attrs ==> Rank(b.name) < bound
  }

  /** One `AddAttrText` step keeps the order. */
  lemma AddAttrTextOrdered(attrs: seq<Attribute>, name: AttrName, text: string)
    requires InWritingOrder(attrs) && RanksBelow(attrs, Rank(name))
    ensures InWritingOrder(AddAttrText(attrs, name, text)) && RanksBelow(AddAttrText(attrs, name, text), Rank(name) + 1)
  {
    if text != [] {
      AppendOrdered(attrs, TextAttribute(name, text));
    }
  }

  /** The attribute list is in writing order, so no name appears twice. */
  lemma AttributesOrdered(cfg: LabelConfig, startTs: string)
    ensures InWritingOrder(Attributes(cfg, startTs))
  {
    var a1 := AddAttrText([], CoordinateFrame, cfg.coordinateFrame);
    AddAttrTextOrdered([], CoordinateFrame, cfg.coordinateFrame);
    var a2 := AddAttrText(a1, Timestamp, startTs);
    AddAttrTextOrdered(a1, Timestamp, startTs);
    var a3 := AddAttrText(a2, AssetRef, cfg.assetRefUri);
    AddAttrTextOrdered(a2, AssetRef, cfg.assetRefUri);
    var a4 := AddAttrText(a3, FeatureId, cfg.featureId);
    AddAttrTextOrdered(a3, FeatureId, cfg.featureId);
    var a5 := AddAttrText(a4, FeatureVersion, cfg.featureVersion);
    AddAttrTextOrdered(a4, FeatureVersion, cfg.featureVersion);
    var a6 := AddAttrText(a5, ClipVersionId, cfg.clipVersionId);
    AddAttrTextOrdered(a5, ClipVersionId, cfg.clipVersionId);
    var a7 := a6 + [EnumAttribute(LabelName, cfg.labelNameEnum)];
    AppendOrdered(a6, EnumAttribute(LabelName, cfg.labelNameEnum));
    assert RanksBelow(a7, Rank(Type));
    var a8 := AddAttrText(a7, Type, cfg.typeText);
    AddAttrTextOrdered(a7, Type, cfg.typeText);
    AppendOrdered(a8, FlagAttribute(IsImplicit, cfg.isImplicit));
  }

  /**
   * label_name and is_implicit are always there, and a text attribute is
   * there exactly when its text is not empty, carrying that text.
   */
  lemma AttributesContent(cfg: LabelConfig, startTs: string)
    ensures EnumAttribute(LabelName, cfg.labelNameEnum) in Attributes(cfg, startTs)
    ensures FlagAttribute(IsImplicit, cfg.isImplicit) in Attributes(cfg, startTs)
    ensures forall f :: f in TextFields(cfg, startTs) ==> (TextAttribute(f.0, f.1) in Attributes(cfg, startTs) <==> f.1 != [])
    ensures forall a :: a in Attributes(cfg, startTs) && a.TextAttribute? ==> (a.name, a.text) in TextFields(cfg, startTs) && a.text != []
  {
    forall f | f in TextFields(cfg, startTs)
      ensures TextAttribute(f.0, f.1) in Attributes(cfg, startTs) <==> f.1 != []
    {
      AttributeMembership(cfg, startTs, TextAttribute(f.0, f.1));
    }
    forall a | a in Attributes(cfg, startTs) && a.TextAttribute?
      ensures (a.name, a.text) in TextFields(cfg, startTs) && a.text != []
    {
      AttributeMembership(cfg, startTs, a);
    }
    AttributeMembership(cfg, startTs, EnumAttribute(LabelName, cfg.labelNameEnum));
    AttributeMembership(cfg, startTs, FlagAttribute(IsImplicit, cfg.isImplicit));
  }

  /** What `AddAttrText` adds: the text attribute, and only when the text is not empty. */
  lemma InAddAttrText(attrs: seq<Attribute>, name: AttrName, text: string, x: Attribute)
    ensures x in AddAttrText(attrs, name, text) <==> x in attrs || (text != [] && x == TextAttribute(name, text))
  {
  }

  /** The attributes of a label, one by one. */
  lemma AttributeMembership(cfg: LabelConfig, startTs: string, x: Attribute)
    ensures x in Attributes(cfg, startTs) <==>
              || x == EnumAttribute(LabelName, cfg.labelNameEnum)
              || x == FlagAttribute(IsImplicit, cfg.isImplicit)
              || (x.TextAttribute? && (x.name, x.text) in TextFields(cfg, startTs) && x.text != [])
  {
    var a1 := AddAttrText([], CoordinateFrame, cfg.coordinateFrame);
    InAddAttrText([], CoordinateFrame, cfg.coordinateFrame, x);
    var a2 := AddAttrText(a1, Timestamp, startTs);
    InAddAttrText(a1, Timestamp, startTs, x);
    var a3 := AddAttrText(a2, AssetRef, cfg.assetRefUri);
    InAddAttrText(a2, AssetRef, cfg.assetRefUri, x);
    var a4 := AddAttrText(a3, FeatureId, cfg.featureId);
    InAddAttrText(a3, FeatureId, cfg.featureId, x);
    var a5 := AddAttrText(a4, FeatureVersion, cfg.featureVersion);
    InAddAttrText(a4, FeatureVersion, cfg.featureVersion, x);
    var a6 := AddAttrText(a5, ClipVersionId, cfg.clipVersionId);
    InAddAttrText(a5, ClipVersionId, cfg.clipVersionId, x);
    var a7 := a6 + [EnumAttribute(LabelName, cfg.labelNameEnum)];
    var a8 := AddAttrText(a7, Type, cfg.typeText);
    InAddAttrText(a7, Type, cfg.typeText, x);
    assert Attributes(cfg, startTs) == a8 + [FlagAttribute(IsImplicit, cfg.isImplicit)];
  }

  /** With the crosswalk values and a session start time, the list is fixed. */
  lemma CrosswalkAttributes(startTs: string)
    requires startTs != []
    ensures Attributes(CrosswalkConfig, startTs) ==
              [TextAttribute(CoordinateFrame, "rig"), TextAttribute(Timestamp, startTs),
               EnumAttribute(LabelName, "crosswalk"), TextAttribute(Type, "PEDESTRIAN"),
               FlagAttribute(IsImplicit, false)]
  {
  }

  // ---------------------------------------------------------------- labels

  /** A crosswalk of the road map: its id and its outline in world metres. */
  datatype Crosswalk = Crosswalk(id: int, locations: seq<Vec3>)

  /** A surface label. */
  datatype CrosswalkLabel = CrosswalkLabel(
    sessionId: string, sensorName: string, labelClassNamespace: string,
    labelClassIdentifier: string, labelClassVersion: string, labelId: string,
    attributes: seq<Attribute>, vertices: seq<Vec3>, timestamp: string)

  /** The label `AppendCrosswalkLabel` writes for one outline. */
  function LabelOf(uuid: string, startTs: string, poly: seq<Vec3>, cfg: LabelConfig,
                   memCrc32: seq<Vec3> -> bv32): CrosswalkLabel
  {
    CrosswalkLabel(uuid, cfg.sensorName, cfg.labelClassNamespace, cfg.labelClassIdentifier,
                   cfg.labelClassVersion, MakeStableLabelId(uuid, poly, memCrc32),
                   Attributes(cfg, startTs), poly, startTs)
  }

  /** `AppendCrosswalkLabel`. */
  method AppendCrosswalkLabel(labels: seq<CrosswalkLabel>, uuid: string, startTs: string, poly: seq<Vec3>,
                              cfg: LabelConfig, memCrc32: seq<Vec3> -> bv32)
    returns (out: seq<CrosswalkLabel>)
    ensures out == labels + [LabelOf(uuid, startTs, poly, cfg, memCrc32)]
  {
    var attrs := BuildAttributes(cfg, startTs);
    var written := CrosswalkLabel(uuid, cfg.sensorName, cfg.labelClassNamespace, cfg.labelClassIdentifier,
                                cfg.labelClassVersion, MakeStableLabelId(uuid, poly, memCrc32),
                                attrs, poly, startTs);
    out := labels + [written];
  }

  /** The crosswalks with at least one location, in map order. */
  function NonEmpty(crosswalks: seq<Crosswalk>): seq<Crosswalk>
  {
    if crosswalks == [] then []
    else
      var last := crosswalks[|crosswalks| - 1];
      NonEmpty(crosswalks[..|crosswalks| - 1]) + (if last.locations != [] then [last] else [])
  }

  /** The labels of the export loop. */
  function CrosswalkLabels(uuid: string, startTs: string, crosswalks: seq<Crosswalk>,
                           memCrc32: seq<Vec3> -> bv32): seq<CrosswalkLabel>
  {
    if crosswalks == [] then []
    else
      var last := crosswalks[|crosswalks| - 1];
      CrosswalkLabels(uuid, startTs, crosswalks[..|crosswalks| - 1], memCrc32)
        + (if last.locations != [] then [LabelOf(uuid, startTs, last.locations, CrosswalkConfig, memCrc32)] else [])
  }

  /** One label per non-empty crosswalk, in map order, whose vertices are its locations. */
  lemma {:induction false} OneLabelPerCrosswalk(uuid: string, startTs: string, crosswalks: seq<Crosswalk>,
                                                memCrc32: seq<Vec3> -> bv32)
    ensures |CrosswalkLabels(uuid, startTs, crosswalks, memCrc32)| == |NonEmpty(crosswalks)|
    ensures forall i :: 0 <= i < |NonEmpty(crosswalks)| ==>
              CrosswalkLabels(uuid, startTs, crosswalks, memCrc32)[i]
              == LabelOf(uuid, startTs, NonEmpty(crosswalks)[i].locations, CrosswalkConfig, memCrc32)
  {
    if crosswalks != [] {
      var init := crosswalks[..|crosswalks| - 1];
      var last := crosswalks[|crosswalks| - 1];
      OneLabelPerCrosswalk(uuid, startTs, init, memCrc32);
      var labels := CrosswalkLabels(uuid, startTs, init, memCrc32);
      var kept := NonEmpty(init);
      if last.locations != [] {
        var written := LabelOf(uuid, startTs, last.locations, CrosswalkConfig, memCrc32);
        assert CrosswalkLabels(uuid, startTs, crosswalks, memCrc32) == labels + [written];
        assert NonEmpty(crosswalks) == kept + [last];
      } else {
        assert CrosswalkLabels(uuid, startTs, crosswalks, memCrc32) == labels;
        assert NonEmpty(crosswalks) == kept;
      }
    }
  }

  /** The crosswalks kept are crosswalks of the map with at least one location. */
  lemma {:induction false} NonEmptyKeepsOutlines(crosswalks: seq<Crosswalk>)
    ensures forall c :: c in NonEmpty(crosswalks) ==> c in crosswalks && c.locations != []
  {
    if crosswalks != [] {
      var init := crosswalks[..|crosswalks| - 1];
      NonEmptyKeepsOutlines(init);
      forall c | c in NonEmpty(crosswalks)
        ensures c in crosswalks && c.locations != []
      {
        if c in NonEmpty(init) {
          assert c in init;
        }
      }
    }
  }

  /** The engine state the exporter reads: a game mode that may hold a road map. */
  datatype GameMode = GameMode(carlaMap: Option<seq<Crosswalk>>)

  /**
   * `ExportCosmosCrosswalk` up to the JSON writer: the session id, the game mode
   * and the map are checked in that order, each with its own error.
   */
  method ExportCosmosCrosswalk(sessionId: string, gameMode: Option<GameMode>, memCrc32: seq<Vec3> -> bv32)
    returns (r: Result<seq<CrosswalkLabel>, string>)
    ensures ParseSessionIdParts(sessionId).None? ==> r == Failure(SessionIdError(sessionId))
    ensures ParseSessionIdParts(sessionId).Some? && gameMode.None? ==> r == Failure("No GameMode found")
    ensures ParseSessionIdParts(sessionId).Some? && gameMode.Some? && gameMode.value.carlaMap.None? ==>
              r == Failure("No CarlaMap found")
    ensures ParseSessionIdParts(sessionId).Some? && gameMode.Some? && gameMode.value.carlaMap.Some? ==>
              var parts := ParseSessionIdParts(sessionId).value;
              r == Success(CrosswalkLabels(parts.uuid, parts.start, gameMode.value.carlaMap.value, memCrc32))
  {
    var parts := ParseSessionIdParts(sessionId);
    if parts.None? {
      return Failure(SessionIdError(sessionId));
    }
    if gameMode.None? {
      return Failure("No GameMode found");
    }
    if gameMode.value.carlaMap.None? {
      return Failure("No CarlaMap found");
    }
    var crosswalks := gameMode.value.carlaMap.value;
    var uuid, startTs := parts.value.uuid, parts.value.start;
    var labels := [];
    var i := 0;
    while i < |crosswalks|
      invariant 0 <= i <= |crosswalks|
      invariant labels == CrosswalkLabels(uuid, startTs, crosswalks[..i], memCrc32)
    {
      assert crosswalks[..i + 1][..i] == crosswalks[..i];
      var locs := crosswalks[i].locations;
      if locs != [] {
        labels := AppendCrosswalkLabel(labels, uuid, startTs, locs, CrosswalkConfig, memCrc32);
      }
      i := i + 1;
    }
    assert crosswalks[..i] == crosswalks;
    return Success(labels);
  }
}
