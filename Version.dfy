/** The four-part file version of GetLibraryVersion: the most significant
    DWORD carries major and minor, the least significant one revision and
    build, each as a high and a low 16-bit word. */
module Version {

  type Dword = x: nat | x < 0x1_0000_0000
  type Word = x: nat | x < 0x1_0000

  /** The HIWORD macro: shift right by 16, keep 16 bits. */
  function HiWord(x: Dword): (w: Word)
  {
    (x / 0x1_0000) % 0x1_0000
  }

  /** The LOWORD macro: keep the low 16 bits. */
  function LoWord(x: Dword): (w: Word)
  {
    x % 0x1_0000
  }

  /** A DWORD made of a high and a low word (the MAKELONG layout). */
  function MakeLong(hi: Word, lo: Word): (x: Dword)
  {
    hi * 0x1_0000 + lo
  }

  datatype FileVersion = FileVersion(major: Word, minor: Word, revision: Word, build: Word)

  /** The split of dwFileVersionMS and dwFileVersionLS: nothing is lost, the
      two DWORDs are recovered from the four parts. */
  function SplitVersion(ms: Dword, ls: Dword): (v: FileVersion)
    ensures MakeLong(v.major, v.minor) == ms
    ensures MakeLong(v.revision, v.build) == ls
  {
    FileVersion(HiWord(ms), LoWord(ms), HiWord(ls), LoWord(ls))
  }

  /** Conversely, each part put into its word comes back unchanged. */
  lemma SplitMakeLong(major: Word, minor: Word, revision: Word, build: Word)
    ensures SplitVersion(MakeLong(major, minor), MakeLong(revision, build)) ==
      FileVersion(major, minor, revision, build)
  {
    WordsOfMakeLong(major, minor);
    WordsOfMakeLong(revision, build);
  }

  /** The high and low words of a MAKELONG are its two arguments. */
  lemma WordsOfMakeLong(hi: Word, lo: Word)
    ensures HiWord(MakeLong(hi, lo)) == hi && LoWord(MakeLong(hi, lo)) == lo
  {
    var x := MakeLong(hi, lo);
    assert x / 0x1_0000 == hi && x % 0x1_0000 == lo;
  }
}
