/**
 * Page helpers shared by the host: `px`, the CSS length of a number, and the
 * ordered loading of image sequences, which reports a sequence only when every
 * image in it has loaded and never reports a later sequence before an earlier
 * one.
 */
module CommonJs {
  import opened JsValues
  import opened Imports

  // ---------------------------------------------------------------------------
  // px
  // ---------------------------------------------------------------------------

  function DigitChar(d: nat): (c: char)
    requires d < 10
    ensures '0' <= c <= '9' && c as int - '0' as int == d
  {
    (d + '0' as int) as char
  }

  predicate IsDigits(s: string)
  {
    forall i :: 0 <= i < |s| ==> '0' <= s[i] <= '9'
  }

  /** The decimal digits of `n`, most significant first, without leading zeros. */
  function NatToDecimal(n: nat): (s: string)
    ensures |s| >= 1 && IsDigits(s) && '0' <= s[0] <= '9'
    ensures |s| > 1 ==> s[0] != '0'
  {
    if n < 10 then [DigitChar(n)] else NatToDecimal(n / 10) + [DigitChar(n % 10)]
  }

  /** `Number.prototype.toString()` of an integral value. */
  function IntToDecimal(n: int): string
  {
    if n < 0 then "-" + NatToDecimal(-n) else NatToDecimal(n)
  }

  /** The value of a string of decimal digits. */
  function DecimalValue(s: string): nat
    requires IsDigits(s)
    decreases |s|
  {
    if s == [] then 0 else DecimalValue(s[..|s| - 1]) * 10 + (s[|s| - 1] as int - '0' as int)
  }

  /** Reading an integer back: an optional minus sign, then at least one digit. */
  function ParseInt(s: string): Option<int>
  {
    if |s| == 0 then None
    else if s[0] == '-' then
      (if |s| >= 2 && IsDigits(s[1..]) then Some(-(DecimalValue(s[1..]) as int)) else None)
    else if IsDigits(s) then Some(DecimalValue(s))
    else None
  }

  lemma {:induction false} DecimalRoundTrip(n: nat)
    ensures DecimalValue(NatToDecimal(n)) == n
    decreases n
  {
    if n >= 10 {
      DecimalRoundTrip(n / 10);
      var s := NatToDecimal(n);
      assert s[..|s| - 1] == NatToDecimal(n / 10);
    }
  }

  lemma ParseNegative(m: nat)
    ensures ParseInt("-" + NatToDecimal(m)) == Some(-(m as int))
  {
    var digits := NatToDecimal(m);
    DecimalRoundTrip(m);
    assert ("-" + digits)[1..] == digits;
  }

  lemma ParseNatural(m: nat)
    ensures ParseInt(NatToDecimal(m)) == Some(m as int)
  {
    DecimalRoundTrip(m);
  }

  /** The decimal text of an integer reads back as that integer. */
  lemma IntRoundTrip(n: int)
    ensures ParseInt(IntToDecimal(n)) == Some(n)
  {
    if n < 0 {
      ParseNegative(-n);
    } else {
      ParseNatural(n);
    }
  }

  /** `px(n)`: the number followed by the unit; the part before the unit reads
      back as `n`, so distinct numbers give distinct lengths. */
  function Px(n: int): (s: string)
    ensures |s| >= 3 && s[|s| - 2..] == "px"
    ensures ParseInt(s[..|s| - 2]) == Some(n)
  {
    var number := IntToDecimal(n);
    IntRoundTrip(n);
    assert (number + "px")[..|number|] == number;
    number + "px"
  }

  // ---------------------------------------------------------------------------
  // Image sequences
  // ---------------------------------------------------------------------------

  /** Where the scan of one sequence ends. */
  datatype SequenceStatus =
    | Complete     // every image is cached and complete
    | Incomplete   // the first image that is not complete stops the check
    | Uncached     // the first image was never requested
    | Missing      // a later image was never requested: reading `.complete` of `undefined`

  /** `imageSequence[i][0]` as a property key: an empty sequence gives "undefined". */
  function FirstKey(sq: seq<string>): string
  {
    if sq == [] then "undefined" else sq[0]
  }

  /** A plain object used as a dictionary: its own entries, source to whether that
      image is complete, and the names it inherits, which `in` sees as well. */
  datatype ImageCache = ImageCache(own: map<string, bool>, inherited: set<string>)

  /** `key in _loadedImages`. */
  predicate Cached(cache: ImageCache, key: string)
  {
    key in cache.own || key in cache.inherited
  }

  /** The completion check from image `j` on; an inherited property has no
      `complete` field and counts as incomplete. It only runs once the first image
      is known, and it fails with a missing image only when one was never requested. */
  function CheckFrom(cache: ImageCache, sq: seq<string>, j: nat): (r: SequenceStatus)
    requires j <= |sq|
    ensures r != Uncached
    ensures r == Missing ==> exists k :: j <= k < |sq| && !Cached(cache, sq[k])
    decreases |sq| - j
  {
    if j == |sq| then Complete
    else if sq[j] in cache.own then (if cache.own[sq[j]] then CheckFrom(cache, sq, j + 1) else Incomplete)
    else if sq[j] in cache.inherited then Incomplete
    else Missing
  }

  /** How the completion check of `loadImagesInternal` ends for one sequence. */
  function Status(cache: ImageCache, sq: seq<string>): (r: SequenceStatus)
    ensures r == Uncached <==> !Cached(cache, FirstKey(sq))
    ensures r == Missing ==> exists k :: 0 <= k < |sq| && !Cached(cache, sq[k])
  {
    if !Cached(cache, FirstKey(sq)) then Uncached else CheckFrom(cache, sq, 0)
  }

  lemma {:induction false} CheckFromComplete(cache: ImageCache, sq: seq<string>, j: nat)
    requires j <= |sq|
    ensures CheckFrom(cache, sq, j) == Complete <==> forall k :: j <= k < |sq| ==> sq[k] in cache.own && cache.own[sq[k]]
    decreases |sq| - j
  {
    if j < |sq| {
      CheckFromComplete(cache, sq, j + 1);
    }
  }

  /** A sequence counts as loaded exactly when its first key is present and every
      one of its images is cached and complete. */
  lemma StatusComplete(cache: ImageCache, sq: seq<string>)
    ensures Status(cache, sq) == Complete <==>
      Cached(cache, FirstKey(sq)) && forall k :: 0 <= k < |sq| ==> sq[k] in cache.own && cache.own[sq[k]]
  {
    CheckFromComplete(cache, sq, 0);
  }

  /** The entries after a new, not yet complete image is requested for every source
      of `sq`, in order. */
  function Inserted(own: map<string, bool>, sq: seq<string>): (r: map<string, bool>)
    ensures own.Keys <= r.Keys
    decreases |sq|
  {
    if sq == [] then own else Inserted(own, sq[..|sq| - 1])[sq[|sq| - 1] := false]
  }

  lemma {:induction false} InsertedEntries(own: map<string, bool>, sq: seq<string>)
    ensures forall k :: 0 <= k < |sq| ==> sq[k] in Inserted(own, sq) && !Inserted(own, sq)[sq[k]]
    ensures forall n :: n in own && n !in sq ==> n in Inserted(own, sq) && Inserted(own, sq)[n] == own[n]
    ensures forall n :: n in Inserted(own, sq) ==> n in own || n in sq
    decreases |sq|
  {
    if sq != [] {
      var pre := sq[..|sq| - 1];
      InsertedEntries(own, pre);
      forall k | 0 <= k < |sq| ensures sq[k] in Inserted(own, sq) && !Inserted(own, sq)[sq[k]] {
        if k < |sq| - 1 {
          assert sq[k] == pre[k];
        }
      }
    }
  }

  /** The outcome of one `loadImagesInternal` pass. */
  datatype Scan = Scan(cache: ImageCache, flags: seq<bool>, reported: seq<nat>, error: Option<Error>)

  /** The pass over sequences `i..`: skip flagged ones, report and flag complete
      ones, and stop at the first other one (requesting its images if its first
      image was never requested, throwing if a later one was not). */
  function ScanFrom(cache: ImageCache, seqs: seq<seq<string>>, flags: seq<bool>, i: nat): (s: Scan)
    requires |flags| == |seqs| && i <= |seqs|
    ensures |s.flags| == |flags|
    decreases |seqs| - i
  {
    if i == |seqs| then Scan(cache, flags, [], None)
    else if flags[i] then ScanFrom(cache, seqs, flags, i + 1)
    else match Status(cache, seqs[i])
      case Complete =>
        var rest := ScanFrom(cache, seqs, flags[i := true], i + 1);
        rest.(reported := [i] + rest.reported)
      case Incomplete => Scan(cache, flags, [], None)
      case Uncached => Scan(cache.(own := Inserted(cache.own, seqs[i])), flags, [], None)
      case Missing => Scan(cache, flags, [], Some(TypeError))
  }

  /** Exactly the sequences before index `p` are flagged. */
  predicate PrefixFlags(flags: seq<bool>, p: nat)
  {
    p <= |flags| && forall k :: 0 <= k < |flags| ==> (flags[k] <==> k < p)
  }

  /** The indices `p, p+1, ..., q-1`. */
  function Range(p: nat, q: nat): (r: seq<nat>)
    requires p <= q
    ensures |r| == q - p && forall k :: 0 <= k < |r| ==> r[k] == p + k
  {
    seq(q - p, k => p + k)
  }

  lemma RangeCons(p: nat, q: nat)
    requires p < q
    ensures [p] + Range(p + 1, q) == Range(p, q)
  {
  }

  /** Flagged sequences are passed over without looking at the cache. */
  lemma {:induction false} ScanSkipsFlagged(cache: ImageCache, seqs: seq<seq<string>>, flags: seq<bool>, i: nat, p: nat)
    requires |flags| == |seqs| && i <= p <= |seqs|
    requires forall k :: i <= k < p ==> flags[k]
    ensures ScanFrom(cache, seqs, flags, i) == ScanFrom(cache, seqs, flags, p)
    decreases p - i
  {
    if i < p {
      ScanSkipsFlagged(cache, seqs, flags, i + 1, p);
    }
  }

  /** Flagging the first unflagged sequence extends the flagged prefix by one. */
  lemma PrefixFlagsExtend(flags: seq<bool>, p: nat)
    requires PrefixFlags(flags, p) && p < |flags|
    ensures !flags[p] && PrefixFlags(flags[p := true], p + 1)
  {
    assert !flags[p];
  }

  /** One step of a pass at an unflagged complete sequence `p`: it is reported and
      flagged, and the pass goes on from `p + 1`. */
  lemma ScanFromStepComplete(cache: ImageCache, seqs: seq<seq<string>>, flags: seq<bool>, p: nat)
    requires |flags| == |seqs| && p < |seqs| && !flags[p]
    requires Status(cache, seqs[p]) == Complete
    ensures var s := ScanFrom(cache, seqs, flags, p);
      var rest := ScanFrom(cache, seqs, flags[p := true], p + 1);
      && s.reported == [p] + rest.reported && s.flags == rest.flags
      && s.cache == rest.cache && s.error == rest.error
  {
  }

  /** A pass ending at an unflagged sequence `p` that is not complete requests its
      images when its first one never was, and throws when a later one never was. */
  lemma ScanFromStepStop(cache: ImageCache, seqs: seq<seq<string>>, flags: seq<bool>, p: nat)
    requires |flags| == |seqs| && p < |seqs| && !flags[p]
    requires Status(cache, seqs[p]) != Complete
    ensures var s := ScanFrom(cache, seqs, flags, p);
      && s.cache == (if Status(cache, seqs[p]) == Uncached then cache.(own := Inserted(cache.own, seqs[p])) else cache)
      && s.error == (if Status(cache, seqs[p]) == Missing then Some(TypeError) else None)
  {
  }

  /** A pass that reaches an unflagged sequence that is not complete reports nothing
      more and flags nothing more. */
  lemma ScanFromStepHalts(cache: ImageCache, seqs: seq<seq<string>>, flags: seq<bool>, p: nat)
    requires |flags| == |seqs| && p < |seqs| && !flags[p]
    requires Status(cache, seqs[p]) != Complete
    ensures ScanFrom(cache, seqs, flags, p).reported == [] && ScanFrom(cache, seqs, flags, p).flags == flags
  {
  }

  /** From flags that mark a prefix `p`, a pass reports `p, p+1, ...` in index order
      and flags exactly those, so the flags again mark a prefix. */
  lemma {:induction false} ScanFromReports(cache: ImageCache, seqs: seq<seq<string>>, flags: seq<bool>, p: nat)
    requires |flags| == |seqs| && PrefixFlags(flags, p)
    ensures var s := ScanFrom(cache, seqs, flags, p);
      && p + |s.reported| <= |seqs|
      && s.reported == Range(p, p + |s.reported|)
      && PrefixFlags(s.flags, p + |s.reported|)
    decreases |seqs| - p
  {
    if p < |seqs| {
      PrefixFlagsExtend(flags, p);
      if Status(cache, seqs[p]) == Complete {
        ScanFromStepComplete(cache, seqs, flags, p);
        var flags' := flags[p := true];
        ScanFromReports(cache, seqs, flags', p + 1);
        RangeCons(p, p + 1 + |ScanFrom(cache, seqs, flags', p + 1).reported|);
      } else {
        ScanFromStepHalts(cache, seqs, flags, p);
        assert Range(p, p) == [];
      }
    }
  }

  /** Every sequence a pass from prefix flags reports was complete in the cache it
      started with, and the one it stops at is not. */
  lemma {:induction false} ScanFromCompletes(cache: ImageCache, seqs: seq<seq<string>>, flags: seq<bool>, p: nat)
    requires |flags| == |seqs| && PrefixFlags(flags, p)
    ensures var s := ScanFrom(cache, seqs, flags, p);
      var q := p + |s.reported|;
      && (forall k :: p <= k < q && k < |seqs| ==> Status(cache, seqs[k]) == Complete)
      && (q < |seqs| ==> Status(cache, seqs[q]) != Complete)
    decreases |seqs| - p
  {
    if p < |seqs| {
      PrefixFlagsExtend(flags, p);
      if Status(cache, seqs[p]) == Complete {
        ScanFromStepComplete(cache, seqs, flags, p);
        var flags' := flags[p := true];
        ScanFromCompletes(cache, seqs, flags', p + 1);
        var s := ScanFrom(cache, seqs, flags, p);
        var rest := ScanFrom(cache, seqs, flags', p + 1);
        var q := p + 1 + |rest.reported|;
        assert p + |s.reported| == q;
        forall k | p <= k < q && k < |seqs| ensures Status(cache, seqs[k]) == Complete {
          if k != p {
            assert p + 1 <= k < q;
          }
        }
      } else {
        ScanFromStepHalts(cache, seqs, flags, p);
      }
    }
  }

  /** From flags that mark a prefix, a pass reports the next sequences in index
      order, each complete in the cache it started with, and flags exactly those,
      so the flags again mark a prefix; it stops at the first sequence that is not
      complete. */
  lemma ScanFromPrefix(cache: ImageCache, seqs: seq<seq<string>>, flags: seq<bool>, p: nat)
    requires |flags| == |seqs| && PrefixFlags(flags, p)
    ensures var s := ScanFrom(cache, seqs, flags, p);
      var q := p + |s.reported|;
      && q <= |seqs|
      && s.reported == Range(p, q)
      && PrefixFlags(s.flags, q)
      && (forall k :: p <= k < q ==> Status(cache, seqs[k]) == Complete)
      && (q < |seqs| ==> Status(cache, seqs[q]) != Complete)
  {
    ScanFromReports(cache, seqs, flags, p);
    ScanFromCompletes(cache, seqs, flags, p);
  }

  /** Where a pass from prefix flags stops: the cache changes only when the sequence
      it stops at was never requested, and then exactly by requesting its images;
      the pass throws a TypeError exactly when a later image of that sequence was
      never requested. */
  lemma {:induction false} ScanFromStop(cache: ImageCache, seqs: seq<seq<string>>, flags: seq<bool>, p: nat)
    requires |flags| == |seqs| && PrefixFlags(flags, p)
    ensures var s := ScanFrom(cache, seqs, flags, p);
      var q := p + |s.reported|;
      && (s.cache == if q < |seqs| && Status(cache, seqs[q]) == Uncached then cache.(own := Inserted(cache.own, seqs[q])) else cache)
      && (s.error.Some? <==> q < |seqs| && Status(cache, seqs[q]) == Missing)
      && (s.error.Some? ==> s.error.value == TypeError)
    decreases |seqs| - p
  {
    if p < |seqs| {
      PrefixFlagsExtend(flags, p);
      if Status(cache, seqs[p]) == Complete {
        ScanFromStepComplete(cache, seqs, flags, p);
        var flags' := flags[p := true];
        ScanFromStop(cache, seqs, flags', p + 1);
        var s := ScanFrom(cache, seqs, flags, p);
        var rest := ScanFrom(cache, seqs, flags', p + 1);
        assert p + |s.reported| == p + 1 + |rest.reported|;
      } else {
        ScanFromStepHalts(cache, seqs, flags, p);
        ScanFromStepStop(cache, seqs, flags, p);
      }
    }
  }

  /** A whole pass from flags that mark a prefix `p` reports `p, p+1, ...` and
      leaves flags that again mark a prefix. */
  lemma ScanReportsRange(cache: ImageCache, seqs: seq<seq<string>>, flags: seq<bool>, p: nat)
    requires |flags| == |seqs| && PrefixFlags(flags, p)
    ensures var s := ScanFrom(cache, seqs, flags, 0);
      && p + |s.reported| <= |seqs|
      && s.reported == Range(p, p + |s.reported|)
      && PrefixFlags(s.flags, p + |s.reported|)
  {
    ScanSkipsFlagged(cache, seqs, flags, 0, p);
    ScanFromPrefix(cache, seqs, flags, p);
  }

  /** Two passes in a row from prefix flags never report the same sequence twice:
      the second one continues exactly where the first one stopped. */
  lemma ScansContinue(c1: ImageCache, c2: ImageCache, seqs: seq<seq<string>>, flags: seq<bool>, p: nat)
    requires |flags| == |seqs| && PrefixFlags(flags, p)
    ensures var s1 := ScanFrom(c1, seqs, flags, 0);
      var s2 := ScanFrom(c2, seqs, s1.flags, 0);
      s1.reported + s2.reported == Range(p, p + |s1.reported| + |s2.reported|)
  {
    ScanReportsRange(c1, seqs, flags, p);
    var s1 := ScanFrom(c1, seqs, flags, 0);
    var q := p + |s1.reported|;
    ScanReportsRange(c2, seqs, s1.flags, q);
    var s2 := ScanFrom(c2, seqs, s1.flags, 0);
    assert s1.reported + s2.reported == Range(p, q + |s2.reported|);
  }

  /** The page's image cache, `_loadedImages`: source to whether its image is
      complete. */
  class ImageLoader {
    var loadedImages: map<string, bool>
    /** The names `_loadedImages` inherits, as a plain object literal does. */
    const inheritedNames: set<string>

    function Cache(): ImageCache
      reads this
    {
      ImageCache(loadedImages, inheritedNames)
    }

    constructor ()
      ensures loadedImages == map[] && inheritedNames == ObjectPrototypeKeys
    {
      loadedImages := map[];
      inheritedNames := ObjectPrototypeKeys;
    }

    /** `loadImagesInternal`: one pass over the sequences; `reported` lists the
        indices handed to `callbackComplete`, in call order. */
    method LoadImagesInternal(seqs: seq<seq<string>>, flags: array<bool>)
      returns (reported: seq<nat>, error: Option<Error>)
      requires flags.Length == |seqs|
      modifies this, flags
      ensures ScanFrom(old(Cache()), seqs, old(flags[..]), 0) == Scan(Cache(), flags[..], reported, error)
    {
      reported, error := [], None;
      var i := 0;
      while i < |seqs|
        invariant 0 <= i <= |seqs|
        invariant loadedImages == old(loadedImages)
        invariant var rest := ScanFrom(Cache(), seqs, flags[..], i);
          ScanFrom(old(Cache()), seqs, old(flags[..]), 0) == rest.(reported := reported + rest.reported)
      {
        if flags[i] {
          i := i + 1;
          continue;
        }
        var sq := seqs[i];
        if FirstKey(sq) in loadedImages || FirstKey(sq) in inheritedNames {
          var j := 0;
          while j < |sq|
            invariant 0 <= j <= |sq|
            invariant CheckFrom(Cache(), sq, 0) == CheckFrom(Cache(), sq, j)
          {
            var src := sq[j];
            if src in loadedImages {
              if !loadedImages[src] {
                assert reported + [] == reported;
                return;
              }
            } else if src in inheritedNames {
              assert reported + [] == reported;
              return;
            } else {
              assert reported + [] == reported;
              return reported, Some(TypeError);
            }
            j := j + 1;
          }
          ghost var before := flags[..];
          flags[i] := true;
          assert flags[..] == before[i := true];
          ghost var rest := ScanFrom(Cache(), seqs, flags[..], i + 1);
          assert reported + ([i] + rest.reported) == (reported + [i]) + rest.reported;
          reported := reported + [i];
        } else {
          assert Status(Cache(), sq) == Uncached;
          ghost var before := flags[..];
          var j := 0;
          while j < |sq|
            invariant 0 <= j <= |sq|
            invariant loadedImages == Inserted(old(loadedImages), sq[..j])
            invariant flags[..] == before
          {
            assert sq[..j + 1][..j] == sq[..j];
            loadedImages := loadedImages[sq[j] := false];
            j := j + 1;
          }
          assert sq[..j] == sq;
          assert reported + [] == reported;
          return;
        }
        i := i + 1;
      }
      assert reported + [] == reported;
    }

    /** `loadImages`: one unset flag per sequence, then a first pass. */
    method LoadImages(seqs: seq<seq<string>>) returns (flags: array<bool>, reported: seq<nat>, error: Option<Error>)
      modifies this
      ensures fresh(flags) && flags.Length == |seqs|
      ensures ScanFrom(old(Cache()), seqs, seq(|seqs|, _ => false), 0) == Scan(Cache(), flags[..], reported, error)
    {
      flags := new bool[|seqs|](_ => false);
      assert flags[..] == seq(|seqs|, _ => false);
      reported, error := LoadImagesInternal(seqs, flags);
    }

    /** An image's `onload`: the image stored under `src` is now complete, and the
        pass runs again with the same flags. */
    method OnLoad(src: string, seqs: seq<seq<string>>, flags: array<bool>) returns (reported: seq<nat>, error: Option<Error>)
      requires flags.Length == |seqs|
      modifies this, flags
      ensures var cache := if src in old(loadedImages) then old(Cache()).(own := old(loadedImages)[src := true]) else old(Cache());
        ScanFrom(cache, seqs, old(flags[..]), 0) == Scan(Cache(), flags[..], reported, error)
    {
      if src in loadedImages {
        loadedImages := loadedImages[src := true];
      }
      reported, error := LoadImagesInternal(seqs, flags);
    }
  }

  /** The first pass of `loadImages` reports sequences 0, 1, ... in order up to the
      first one that is not complete. */
  lemma FirstPassReportsPrefix(cache: ImageCache, seqs: seq<seq<string>>)
    ensures var s := ScanFrom(cache, seqs, seq(|seqs|, _ => false), 0);
      && |s.reported| <= |seqs|
      && s.reported == Range(0, |s.reported|)
      && PrefixFlags(s.flags, |s.reported|)
      && (forall k :: 0 <= k < |s.reported| ==> Status(cache, seqs[k]) == Complete)
      && (|s.reported| < |seqs| ==> Status(cache, seqs[|s.reported|]) != Complete)
  {
    ScanFromPrefix(cache, seqs, seq(|seqs|, _ => false), 0);
  }
}
