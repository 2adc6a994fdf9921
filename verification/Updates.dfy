/** What an update says it is (src/update.rs), and what putting it in place comes to. */
module Updates {
  import opened Checksum
  import opened Common
  import Http
  import Ota

  datatype Update = Update(
    available: bool, url: Option<string>, uuid: Option<string>, size: Option<nat>, checksum: Option<string>)
  {
    /** Whether there is something to download: `actionable`. */
    predicate Actionable() { available && url.Some? && uuid.Some? }
  }

  /**
   What makes a body the image that was meant: some of it, all of it, and the right one. NervesHub's
   size says how much is all, or what the server `announced` if NervesHub gave none.
   */
  ghost predicate Whole(update: Update, announced: Option<nat>, body: seq<byte>, digest: Digest) {
    && body != []
    && (update.size.Some? ==> |body| == update.size.value)
    && (update.size.None? && announced.Some? ==> |body| == announced.value)
    && (update.checksum.Some? ==> ParseHex(update.checksum.value) == Some(digest(body)))
  }

  /** How a server and a flash would answer an install. */
  datatype Job = Job(opens: Http.OpenOutcomes, chunks: Http.Chunks, flash: Ota.Outcomes)

  /** The server answers an opening, announcing this length or none, and gives this body, which is whole. */
  ghost predicate Serves(update: Update, announced: Option<nat>, body: seq<byte>, job: Job, digest: Digest) {
    Http.Answers(job.opens, announced) && Http.Delivers(job.chunks, body) && Whole(update, announced, body, digest)
  }

  /** All an install can ask for: something to download, a server that gives it, and a flash that takes it. */
  ghost predicate Installable(update: Update, job: Job, digest: Digest) {
    && update.Actionable() && Ota.Sturdy(job.flash)
    && exists announced, body :: Serves(update, announced, body, job, digest)
  }

  /** An image that was downloaded for an update, and the writer it was committed with. */
  datatype Image = Image(update: Update, announced: Option<nat>, body: seq<byte>, writer: Ota.Writer)

  /**
   It is all that the server gave, and whole; the slot took that and nothing else; the bootloader was
   pointed at it once; and if it was a patch, that finalized well.
   */
  ghost predicate InPlace(image: Image, job: Job, digest: Digest) {
    && image.update.Actionable()
    && Serves(image.update, image.announced, image.body, job, digest)
    && Ota.Valid(image.writer) && Ota.Fed(image.writer.calls) == image.body
    && Ota.Boots(image.writer.calls) == 1 && !Ota.BootsUnpatched(image.writer.calls)
  }
}
