/** The extension whitelist that both profile forms apply to a picked file:
    the part of the name from its last `.`, lower-cased, must be one of four
    image extensions. */
module ImageFiles {
  import opened Strings

  const AllowedImageExtensions: seq<string> := [".png", ".jpg", ".gif", ".jpeg"]

  const InvalidImageMessage := "Please upload a valid image file (PNG, JPG, GIF, JPEG)"

  /** `name.substring(name.lastIndexOf('.')).toLowerCase()`: without a `.`
      the whole name is taken, since `substring(-1)` starts at 0. */
  function ExtensionOf(name: string): (ext: string)
    ensures |ext| <= |name|
    ensures LastIndexOf(name, '.') >= 0 ==> ext == ToLower(name[LastIndexOf(name, '.')..])
    ensures LastIndexOf(name, '.') < 0 ==> ext == ToLower(name)
  {
    ToLower(SubstringFrom(name, LastIndexOf(name, '.')))
  }

  /** `allowedImageTypes.includes(fileExt)` */
  predicate IsAllowedImageName(name: string) {
    ExtensionOf(name) in AllowedImageExtensions
  }

  /** The name ends with `ext` once A to Z are folded to lower case. */
  predicate EndsWithFolded(name: string, ext: string) {
    |ext| <= |name| && ToLower(name[|name| - |ext|..]) == ext
  }

  /** An extension as the whitelist writes them: a `.` and then no other `.`. */
  predicate IsDotSuffix(ext: string) {
    |ext| > 0 && ext[0] == '.' && forall i :: 1 <= i < |ext| ==> ext[i] != '.'
  }

  lemma LowerCharDot(c: char)
    ensures LowerChar(c) == '.' <==> c == '.'
  {
  }

  /** The computed extension is `ext` exactly when the name ends with `ext`,
      case aside. */
  lemma {:induction false} ExtensionOfIff(name: string, ext: string)
    requires IsDotSuffix(ext)
    ensures ExtensionOf(name) == ext <==> EndsWithFolded(name, ext)
  {
    var k := LastIndexOf(name, '.');
    if ExtensionOf(name) == ext {
      if k < 0 {
        LowerCharDot(name[0]);
      }
      assert |name[k..]| == |ext|;
    }
    if EndsWithFolded(name, ext) {
      var p := |name| - |ext|;
      var tail := name[p..];
      assert ToLower(tail)[0] == '.';
      LowerCharDot(name[p]);
      assert name[p] == '.';
      forall i | p < i < |name| ensures name[i] != '.' {
        assert ToLower(tail)[i - p] == ext[i - p];
        LowerCharDot(name[i]);
      }
      assert k == p;
    }
  }

  /** A name is accepted exactly when it ends with one of the four image
      extensions, in any mix of upper and lower case. */
  lemma AllowedImageNameIff(name: string)
    ensures IsAllowedImageName(name) <==>
      EndsWithFolded(name, ".png") || EndsWithFolded(name, ".jpg")
      || EndsWithFolded(name, ".gif") || EndsWithFolded(name, ".jpeg")
  {
    ExtensionOfIff(name, ".png");
    ExtensionOfIff(name, ".jpg");
    ExtensionOfIff(name, ".gif");
    ExtensionOfIff(name, ".jpeg");
  }

  /** A PDF is refused, even where the file input advertises `.pdf`. */
  lemma PdfIsRefused(name: string)
    requires EndsWithFolded(name, ".pdf")
    ensures !IsAllowedImageName(name)
  {
    ExtensionOfIff(name, ".pdf");
  }

  lemma PngExample()
    ensures IsAllowedImageName("photo.png")
  {
    var tail := "photo.png"[5..];
    assert tail == ".png";
    var t := ToLower(tail);
    assert t[0] == '.' && t[1] == 'p' && t[2] == 'n' && t[3] == 'g';
    assert t == ".png";
    ExtensionOfIff("photo.png", ".png");
  }

  lemma UpperCaseExample()
    ensures IsAllowedImageName("Scan.JPEG")
  {
    var tail := "Scan.JPEG"[4..];
    assert tail == ".JPEG";
    var t := ToLower(tail);
    assert t[0] == '.' && t[1] == 'j' && t[2] == 'p' && t[3] == 'e' && t[4] == 'g';
    assert t == ".jpeg";
    ExtensionOfIff("Scan.JPEG", ".jpeg");
  }

  lemma ExeIsRefused()
    ensures !IsAllowedImageName("doc.exe")
  {
    var t := ToLower("doc.exe"[3..]);
    assert t[0] == '.' && t[1] == 'e' && t[2] == 'x' && t[3] == 'e';
    AllowedImageNameIff("doc.exe");
  }

  /** Only the part after the last `.` counts. */
  lemma DoubleExtensionIsRefused()
    ensures !IsAllowedImageName("photo.png.exe")
  {
    var t := ToLower("photo.png.exe"[9..]);
    assert t[0] == '.' && t[1] == 'e' && t[2] == 'x' && t[3] == 'e';
    AllowedImageNameIff("photo.png.exe");
  }

  /** Without a `.` the whole name is compared, and it never matches. */
  lemma NoDotIsRefused(name: string)
    requires forall i :: 0 <= i < |name| ==> name[i] != '.'
    ensures !IsAllowedImageName(name)
  {
    var ext := ExtensionOf(name);
    if ext in AllowedImageExtensions {
      assert ext[0] == '.';
      LowerCharDot(name[0]);
    }
  }
}
