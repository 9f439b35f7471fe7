/** src/vulkan/utilities.rs: reading the NUL-terminated `c_char` arrays the driver
    fills in (`vk_to_string`), turning name lists into owned C strings plus pointers
    (`conver_str_vec_to_c_str_ptr_vec`), and the "is any wanted name among the reported
    names" test that instance.rs and physical_device.rs both build from them.

    Text is kept as bytes: a Rust `String`/`&str` is its UTF-8 encoding, and two of them
    are equal exactly when their bytes are. */
module Utilities {
  import opened Base

  type byte = x: int | 0 <= x < 256

  /** The UTF-8 encoding of a Rust string (for instance a `&'static str` literal). */
  type Str = seq<byte>

  // ---------------------------------------------------------------- UTF-8

  predicate Continuation(b: byte) {
    0x80 <= b <= 0xBF
  }

  /** The length of the well-formed UTF-8 byte sequence `s` starts with, or 0 when `s`
      does not start with one (the table of well-formed byte sequences in section 3.9
      of the Unicode Standard, which `str::from_utf8` checks). */
  function SequenceLength(s: seq<byte>): (n: nat)
    ensures n <= |s| && n <= 4
    ensures |s| > 0 && s[0] < 0x80 ==> n == 1
  {
    if |s| == 0 then 0
    else if s[0] <= 0x7F then 1
    else if 0xC2 <= s[0] <= 0xDF then
      if |s| >= 2 && Continuation(s[1]) then 2 else 0
    else if 0xE0 <= s[0] <= 0xEF then
      var lo := if s[0] == 0xE0 then 0xA0 else 0x80;
      var hi := if s[0] == 0xED then 0x9F else 0xBF;
      if |s| >= 3 && lo <= s[1] <= hi && Continuation(s[2]) then 3 else 0
    else if 0xF0 <= s[0] <= 0xF4 then
      var lo := if s[0] == 0xF0 then 0x90 else 0x80;
      var hi := if s[0] == 0xF4 then 0x8F else 0xBF;
      if |s| >= 4 && lo <= s[1] <= hi && Continuation(s[2]) && Continuation(s[3]) then 4 else 0
    else 0
  }

  /** `s` is well-formed UTF-8. */
  predicate ValidUtf8(s: seq<byte>)
    decreases |s|
  {
    s == [] || (SequenceLength(s) > 0 && ValidUtf8(s[SequenceLength(s)..]))
  }

  /** The UTF-8 encoding of one Unicode scalar value. */
  function EncodeChar(c: char): (e: seq<byte>)
    ensures 1 <= |e| <= 4
    ensures e[0] == 0 <==> c == '\0'
    ensures forall k :: 1 <= k < |e| ==> Continuation(e[k])
  {
    var cp := c as int;
    if cp < 0x80 then [cp]
    else if cp < 0x800 then [0xC0 + cp / 0x40, 0x80 + cp % 0x40]
    else if cp < 0x10000 then [0xE0 + cp / 0x1000, 0x80 + (cp / 0x40) % 0x40, 0x80 + cp % 0x40]
    else [0xF0 + cp / 0x40000, 0x80 + (cp / 0x1000) % 0x40, 0x80 + (cp / 0x40) % 0x40, 0x80 + cp % 0x40]
  }

  /** The UTF-8 encoding of a string. */
  function Encode(s: string): Str {
    if s == [] then [] else EncodeChar(s[0]) + Encode(s[1..])
  }

  /** The encoding of a character is read back as one whole well-formed sequence,
      whatever follows it. */
  lemma EncodeCharLength(c: char, rest: seq<byte>)
    ensures SequenceLength(EncodeChar(c) + rest) == |EncodeChar(c)|
  {
    var e := EncodeChar(c);
    var s := e + rest;
    var cp := c as int;
    assert s[0] == e[0];
    if cp < 0x80 {
    } else if cp < 0x800 {
      assert s[1] == e[1];
    } else if cp < 0x10000 {
      assert s[1] == e[1] && s[2] == e[2];
      assert cp < 0xD800 || 0xE000 <= cp;
    } else {
      assert s[1] == e[1] && s[2] == e[2] && s[3] == e[3];
      assert cp < 0x110000;
    }
  }

  /** Encoding always yields well-formed UTF-8. */
  lemma {:induction false} EncodeValid(s: string)
    ensures ValidUtf8(Encode(s))
  {
    if s != [] {
      EncodeValid(s[1..]);
      EncodeCharLength(s[0], Encode(s[1..]));
      assert (EncodeChar(s[0]) + Encode(s[1..]))[|EncodeChar(s[0])|..] == Encode(s[1..]);
    }
  }

  /** The encoding of a string holds a NUL byte exactly when the string holds `'\0'`. */
  lemma {:induction false} EncodeNul(s: string)
    ensures 0 in Encode(s) <==> '\0' in s
  {
    if s != [] {
      EncodeNul(s[1..]);
      var e := EncodeChar(s[0]);
      assert 0 in e <==> e[0] == 0;
      assert Encode(s) == e + Encode(s[1..]);
      assert '\0' in s <==> s[0] == '\0' || '\0' in s[1..] by {
        assert s == [s[0]] + s[1..];
      }
    }
  }

  /** A string of ASCII characters only, like every extension and layer name. */
  predicate IsAscii(s: string) {
    forall i :: 0 <= i < |s| ==> s[i] < 128 as char
  }

  /** An ASCII string's bytes: one per character, its code. */
  function Ascii(s: string): (r: Str)
    requires IsAscii(s)
    ensures |r| == |s|
  {
    seq(|s|, i requires 0 <= i < |s| => s[i] as int)
  }

  /** For ASCII text the character codes are the UTF-8 encoding. */
  lemma {:induction false} AsciiIsEncode(s: string)
    requires IsAscii(s)
    ensures Ascii(s) == Encode(s)
  {
    if s != [] {
      AsciiIsEncode(s[1..]);
      assert Ascii(s) == [s[0] as int] + Ascii(s[1..]);
    }
  }

  // ---------------------------------------------------------------- vk_to_string

  /** A `c_char` array the driver fills in holds a NUL somewhere: `CStr::from_ptr`
      scans for it and reading past the array would be undefined behaviour. */
  predicate Terminated(raw: seq<byte>) {
    0 in raw
  }

  /** A fixed-size `c_char` array as the driver fills it in: NUL-terminated. */
  type CChars = raw: seq<byte> | Terminated(raw) witness [0]

  /** The position of the first NUL (what `strlen` computes). */
  function NulIndex(raw: seq<byte>): (k: nat)
    requires Terminated(raw)
    ensures k < |raw| && raw[k] == 0
    ensures forall j :: 0 <= j < k ==> raw[j] != 0
  {
    if raw[0] == 0 then 0
    else
      assert 0 in raw[1..] by { var j :| 0 <= j < |raw| && raw[j] == 0; assert raw[1..][j - 1] == 0; }
      1 + NulIndex(raw[1..])
  }

  /** The bytes `CStr::from_ptr` sees: everything before the first NUL. */
  function CStrBytes(raw: seq<byte>): (s: seq<byte>)
    requires Terminated(raw)
    ensures 0 !in s && s + [0] <= raw
  {
    raw[..NulIndex(raw)]
  }

  /** Only one byte string is NUL-free and followed by a NUL at the start of `raw`. */
  lemma CStrBytesUnique(raw: seq<byte>, s: seq<byte>)
    requires Terminated(raw)
    requires 0 !in s && s + [0] <= raw
    ensures s == CStrBytes(raw)
  {
    assert raw[|s|] == 0 by { assert (s + [0])[|s|] == 0; }
    assert s == raw[..|s|] by {
      forall j | 0 <= j < |s| ensures s[j] == raw[j] { assert (s + [0])[j] == s[j]; }
    }
  }

  /** `vk_to_string`: the characters before the first NUL, or a panic when they are
      not UTF-8 (`to_str().expect(..)`). */
  function VkToString(raw: seq<byte>): (r: Result<Str>)
    requires Terminated(raw)
    ensures r.Ok? <==> ValidUtf8(CStrBytes(raw))
    ensures r.Ok? ==> 0 !in r.value && r.value + [0] <= raw
    ensures r.Panicked? ==> r.panic == InvalidUtf8
  {
    var s := CStrBytes(raw);
    if ValidUtf8(s) then Ok(s) else Panicked(InvalidUtf8)
  }

  // ---------------------------------------------------------------- C strings

  /** An owned `CString`: a heap allocation at `address` holding `contents` and the
      terminating NUL. */
  datatype CString = CString(address: nat, contents: Str) {
    function Bytes(): seq<byte> {
      contents + [0]
    }
  }

  /** `vec.iter().map(|n| CString::new(*n).unwrap()).collect()`: the `k`-th string
      goes to the `k`-th allocation, here address `base + k`; `CString::new` refuses a
      string with an interior NUL. */
  function OwnedCStrings(names: seq<Str>, base: nat): (r: Result<seq<CString>>)
    ensures r.Panicked? <==> exists k :: 0 <= k < |names| && 0 in names[k]
    ensures r.Panicked? ==> r.panic == InteriorNul
    ensures r.Ok? ==> |r.value| == |names|
    ensures r.Ok? ==> forall k :: 0 <= k < |names| ==>
                        r.value[k].contents == names[k] && r.value[k].address == base + k
    decreases |names|
  {
    if names == [] then Ok([])
    else if 0 in names[0] then Panicked(InteriorNul)
    else match OwnedCStrings(names[1..], base + 1)
      case Panicked(p) => Panicked(p)
      case Ok(rest) => Ok([CString(base, names[0])] + rest)
  }

  /** `conver_str_vec_to_c_str_ptr_vec`: the owned strings and, in the same order, a
      pointer to each. */
  function ConvertToCStrings(names: seq<Str>, base: nat): (r: Result<(seq<CString>, seq<nat>)>)
    ensures r.Panicked? <==> exists k :: 0 <= k < |names| && 0 in names[k]
    ensures r.Ok? ==> |r.value.0| == |names| && |r.value.1| == |names|
    ensures r.Ok? ==> forall k :: 0 <= k < |names| ==>
                        r.value.0[k].contents == names[k] && r.value.1[k] == r.value.0[k].address
    ensures r.Ok? ==> Distinct(r.value.1)
  {
    match OwnedCStrings(names, base)
    case Panicked(p) => Panicked(p)
    case Ok(owned) => Ok((owned, seq(|owned|, k requires 0 <= k < |owned| => owned[k].address)))
  }

  /** The owned string, if any, that a pointer points at. */
  function StringAt(owned: seq<CString>, p: nat): Option<CString> {
    if owned == [] then None
    else if owned[0].address == p then Some(owned[0])
    else StringAt(owned[1..], p)
  }

  /** Reading the `k`-th pointer back as a C string gives the `k`-th input name: the
      pointer leads to the `k`-th owned string, and `vk_to_string` of its bytes is the
      name again. */
  lemma {:induction false} ConvertRoundTrip(names: seq<Str>, base: nat, k: nat)
    requires ConvertToCStrings(names, base).Ok?
    requires k < |names| && ValidUtf8(names[k])
    ensures var (owned, ptrs) := ConvertToCStrings(names, base).value;
            StringAt(owned, ptrs[k]) == Some(owned[k]) &&
            Terminated(owned[k].Bytes()) &&
            VkToString(owned[k].Bytes()) == Ok(names[k])
  {
    var (owned, ptrs) := ConvertToCStrings(names, base).value;
    StringAtDistinct(owned, base, k);
    var s := owned[k].contents;
    assert owned[k].Bytes()[|s|] == 0;
    CStrBytesUnique(owned[k].Bytes(), s);
  }

  lemma {:induction false} StringAtDistinct(owned: seq<CString>, base: nat, k: nat)
    requires k < |owned|
    requires forall j :: 0 <= j < |owned| ==> owned[j].address == base + j
    ensures StringAt(owned, base + k) == Some(owned[k])
  {
    if k > 0 {
      StringAtDistinct(owned[1..], base + 1, k - 1);
    }
  }

  // ---------------------------------------------------------------- name lookup

  /** All reported names are readable: every one is terminated and UTF-8. */
  predicate AllReadable(raws: seq<seq<byte>>)
    requires forall k :: 0 <= k < |raws| ==> Terminated(raws[k])
  {
    forall k :: 0 <= k < |raws| ==> VkToString(raws[k]).Ok?
  }

  /** `raws.iter().any(|v| vk_to_string(v) == *name)`: lazily converts the reported
      names one by one and stops at the first equal one, so an unreadable name
      panics only when it is reached. */
  function AnyNameEquals(name: Str, raws: seq<seq<byte>>): (r: Result<bool>)
    requires forall k :: 0 <= k < |raws| ==> Terminated(raws[k])
    ensures r == Ok(true) ==> exists k :: 0 <= k < |raws| && CStrBytes(raws[k]) == name
    ensures r.Panicked? ==> r.panic == InvalidUtf8 && !AllReadable(raws)
    ensures AllReadable(raws) ==>
              r == Ok(exists k :: 0 <= k < |raws| && CStrBytes(raws[k]) == name)
  {
    if raws == [] then Ok(false)
    else match VkToString(raws[0])
      case Panicked(p) => Panicked(p)
      case Ok(s) =>
        if s == name then Ok(true)
        else
          var r := AnyNameEquals(name, raws[1..]);
          assert forall k :: 1 <= k < |raws| ==> raws[1..][k - 1] == raws[k];
          r
  }

  /** `required.iter().map(|x| <AnyNameEquals x>).any(|b| b)`: whether some
      required name is reported, evaluated lazily in the order of `required`. */
  function AnyRequiredAvailable(required: seq<Str>, raws: seq<seq<byte>>): (r: Result<bool>)
    requires forall k :: 0 <= k < |raws| ==> Terminated(raws[k])
    ensures r == Ok(true) ==> exists i, k :: 0 <= i < |required| && 0 <= k < |raws| &&
                                             CStrBytes(raws[k]) == required[i]
    ensures r.Panicked? ==> r.panic == InvalidUtf8 && !AllReadable(raws)
    ensures AllReadable(raws) ==>
              r == Ok(exists i, k :: 0 <= i < |required| && 0 <= k < |raws| &&
                                     CStrBytes(raws[k]) == required[i])
  {
    if required == [] then Ok(false)
    else match AnyNameEquals(required[0], raws)
      case Panicked(p) => Panicked(p)
      case Ok(found) =>
        if found then Ok(true)
        else
          var r := AnyRequiredAvailable(required[1..], raws);
          assert forall i :: 1 <= i < |required| ==> required[1..][i - 1] == required[i];
          r
  }

  /** With a single required name, "some required name is reported" is the same as
      "every required name is reported". */
  lemma SingleRequiredAnyIsAll(required: seq<Str>, raws: seq<seq<byte>>)
    requires forall k :: 0 <= k < |raws| ==> Terminated(raws[k])
    requires |required| == 1 && AllReadable(raws)
    ensures AnyRequiredAvailable(required, raws) == Ok(forall i :: 0 <= i < |required| ==>
              exists k :: 0 <= k < |raws| && CStrBytes(raws[k]) == required[i])
  {
  }
}
