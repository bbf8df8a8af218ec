/**
 * The CIFAR-10 binary record layout and `read_image`.
 *
 * A batch file is a flat run of records, each one label byte followed by
 * the 3072 bytes of a 32x32x3 image. The input stream is modelled with
 * the read semantics of `std::istream::read`: a read copies as many bytes
 * as remain, and a read that comes up short sets the fail state, after
 * which every further read copies nothing.
 */
module CifarFormat {

  const ImageSize: nat := 32           // kCIFARSize
  const ImageBytes: nat := 3072        // kCIFARImageNBytes
  const BatchSize: nat := 10000        // kCIFARBatchSize
  const TrainBatches: nat := 5         // kCIFARTrainBatches
  /** One label byte followed by one image. */
  const RecordBytes: nat := 1 + ImageBytes

  type byte = x: int | 0 <= x < 256
  /** The range of a signed `char`. */
  type int8 = x: int | -128 <= x < 128
  type Image = s: seq<byte> | |s| == ImageBytes witness Zeros(ImageBytes)

  function Zeros(n: nat): (z: seq<byte>)
  {
    seq(n, _ => 0)
  }

  function Min(a: int, b: int): (m: int)
    ensures m <= a && m <= b && (m == a || m == b)
  {
    if a <= b then a else b
  }

  /**
   * A byte read into a (signed) `char` and widened to `int`: two's
   * complement, so the value is congruent to the byte modulo 256.
   */
  function SignedChar(b: byte): (v: int8)
    ensures v % 256 == b
    ensures (v < 0) == (b >= 128)
  {
    if b < 128 then b else b - 256
  }

  /** An open `std::ifstream` over the bytes of one file. */
  class InputFile {
    const bytes: seq<byte>
    var pos: nat
    var good: bool

    ghost predicate Valid()
      reads this
    {
      pos <= |bytes|
    }

    constructor (contents: seq<byte>)
      ensures Valid()
      ensures bytes == contents && pos == 0 && good
    {
      bytes := contents;
      pos := 0;
      good := true;
    }

    /** `read(buf, n)`: copies up to n bytes; a short read sets the fail state. */
    method Read(n: nat) returns (got: seq<byte>)
      requires Valid()
      modifies this
      ensures Valid()
      ensures old(good) ==> got == bytes[old(pos)..old(pos) + Min(n, |bytes| - old(pos))]
      ensures !old(good) ==> got == []
      ensures pos == old(pos) + |got|
      ensures good == (old(good) && |got| == n)
    {
      if good {
        var k := Min(n, |bytes| - pos);
        got := bytes[pos..pos + k];
        pos := pos + k;
        good := k == n;
      } else {
        got := [];
      }
    }
  }

  /**
   * `read_image`: reads one label byte as a signed `char`, then up to
   * 3072 bytes over the front of `buffer`. When the label byte cannot be
   * read the local `char` keeps an indeterminate value, given here as
   * `unread`; bytes of `buffer` that are not read over keep their value.
   */
  method ReadImage(file: InputFile, buffer: Image, unread: int8) returns (lbl: int, image: Image)
    requires file.Valid()
    modifies file
    ensures file.Valid()
    ensures -128 <= lbl < 128
    ensures old(file.good) && old(file.pos) < |file.bytes| ==> lbl == SignedChar(file.bytes[old(file.pos)])
    ensures !(old(file.good) && old(file.pos) < |file.bytes|) ==> lbl == unread
    ensures old(file.good) && old(file.pos) < |file.bytes| ==>
              var at := old(file.pos) + 1;
              var k := Min(ImageBytes, |file.bytes| - at);
              image == file.bytes[at..at + k] + buffer[k..] && file.pos == at + k
    ensures !(old(file.good) && old(file.pos) < |file.bytes|) ==>
              image == buffer && file.pos == old(file.pos)
    ensures file.good == (old(file.good) && old(file.pos) + RecordBytes <= |file.bytes|)
  {
    var lblChar := file.Read(1);
    lbl := if |lblChar| == 1 then SignedChar(lblChar[0]) else unread;
    var got := file.Read(ImageBytes);
    image := got + buffer[|got|..];
  }

  /** The label that the t-th `read_image` call on a fresh stream over `file` stores. */
  function ItemLabel(file: seq<byte>, t: nat, unread: int8): (l: int)
    ensures -128 <= l < 128
    ensures t * RecordBytes < |file| ==> l % 256 == file[t * RecordBytes]
  {
    var at := t * RecordBytes;
    if at < |file| then SignedChar(file[at]) else unread
  }

  /**
   * The image that the t-th `read_image` call on a fresh stream over
   * `file` leaves in a zero-initialised buffer.
   */
  function ItemImage(file: seq<byte>, t: nat): (img: Image)
    ensures t * RecordBytes + RecordBytes <= |file| ==>
              img == file[t * RecordBytes + 1..t * RecordBytes + RecordBytes]
    ensures |file| <= t * RecordBytes ==> img == Zeros(ImageBytes)
  {
    var at := t * RecordBytes + 1;
    if at <= |file| then
      var k := Min(ImageBytes, |file| - at);
      file[at..at + k] + Zeros(ImageBytes - k)
    else
      Zeros(ImageBytes)
  }

  /**
   * The state of a stream over `file` after t calls of `read_image`:
   * either every record so far was read whole, or the stream has failed at
   * the end of a file too short for t records.
   */
  ghost predicate StreamAfter(f: InputFile, file: seq<byte>, t: nat)
    reads f
  {
    f.Valid() && f.bytes == file &&
    ((f.good && f.pos == t * RecordBytes) ||
     (!f.good && f.pos == |file| && |file| < t * RecordBytes))
  }

  /** One more `read_image` call stores item t and moves the stream on. */
  method ReadItem(file: InputFile, ghost t: nat, buffer: Image, unread: int8) returns (lbl: int, image: Image)
    requires StreamAfter(file, file.bytes, t)
    requires buffer == Zeros(ImageBytes)
    modifies file
    ensures StreamAfter(file, file.bytes, t + 1)
    ensures lbl == ItemLabel(file.bytes, t, unread)
    ensures image == ItemImage(file.bytes, t)
  {
    lbl, image := ReadImage(file, buffer, unread);
  }

  /**
   * A file that holds all its records: every item is the label byte
   * and the 3072 bytes that follow it, unchanged.
   */
  lemma WholeFileItems(file: seq<byte>, unread: int8, t: nat)
    requires |file| >= BatchSize * RecordBytes
    requires t < BatchSize
    ensures ItemLabel(file, t, unread) == SignedChar(file[t * RecordBytes])
    ensures ItemImage(file, t) == file[t * RecordBytes + 1..(t + 1) * RecordBytes]
  {
    assert (t + 1) * RecordBytes == t * RecordBytes + RecordBytes;
    assert t * RecordBytes + RecordBytes <= BatchSize * RecordBytes;
  }
}
