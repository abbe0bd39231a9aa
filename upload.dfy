/** The multer file filter for uploaded images. */
module Upload {
  import opened Base
  import opened Text

  /** The parts of an uploaded file multer passes to the filter. */
  datatype File = File(fieldname: string, originalname: string, mimetype: string, size: nat)

  /** The arguments of the one `cb(error, accept)` call. */
  datatype Verdict = Verdict(error: Option<string>, accept: bool)

  /** Accepts exactly the MIME types that start with "image" (no "/" is required). */
  function FileFilter(file: File): (v: Verdict)
    ensures v.accept <==> StartsWith(file.mimetype, "image")
    ensures v.accept <==> v.error.None?
    ensures !v.accept ==> v.error == Some("Not an image! Please upload only images.")
  {
    if StartsWith(file.mimetype, "image") then Verdict(None, true)
    else Verdict(Some("Not an image! Please upload only images."), false)
  }

  /** Only the MIME type decides. */
  lemma OnlyMimeTypeMatters(f: File, g: File)
    requires f.mimetype == g.mimetype
    ensures FileFilter(f) == FileFilter(g)
  {
  }

  /** The prefix test is bare: "image" and "imagex/y" pass, "text/image" does not. */
  lemma BarePrefix(f: File, g: File, h: File)
    requires f.mimetype == "image" && g.mimetype == "imagex/y" && h.mimetype == "text/image"
    ensures FileFilter(f).accept && FileFilter(g).accept && !FileFilter(h).accept
  {
    assert g.mimetype[..5] == "image";
    assert h.mimetype[..5] != "image" by { assert h.mimetype[0] == 't'; }
  }
}
