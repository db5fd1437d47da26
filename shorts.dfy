/** The vertical short (shorts_generator.py): an excerpt of the episode over its cover, 9:16. */
module Shorts {
  import opened Wrappers
  import opened Paths
  import opened Render

  const Canvas := Size(1080, 1920)

  /** The backing colour, a near-black (shorts_generator.py:34). */
  const Backing := Rgb(10, 10, 10)

  /** The width the sharp cover is scaled to (shorts_generator.py:38). */
  const CoverWidth := 918

  /**
   * The cover width is `int(W * 0.85)`: the product is exactly 918 in real
   * arithmetic (and in binary floating point), and `int` truncates it to 918.
   * The cover is narrower than the canvas.
   */
  lemma CoverWidthIsTruncatedProduct()
    ensures CoverWidth == (Canvas.width as real * 0.85).Floor
    ensures CoverWidth < Canvas.width
  {
  }

  /**
   * The duration after the guard of shorts_generator.py:17-18: the excerpt never
   * runs past the end of the audio, is never longer than asked, and is cut only by
   * ending exactly where the audio ends. The excerpt is non-empty exactly when a
   * positive duration starts inside the audio.
   */
  function Clamp(start: real, duration: real, length: real): (d: real)
    ensures start + d <= length
    ensures d <= duration
    ensures d == duration || start + d == length
    ensures start + duration <= length ==> d == duration
    ensures d > 0.0 <==> 0.0 < duration && start < length
  {
    if start + duration > length then length - start else duration
  }

  /** Clamping twice changes nothing. */
  lemma ClampIdempotent(start: real, duration: real, length: real)
    ensures Clamp(start, Clamp(start, duration, length), length) == Clamp(start, duration, length)
  {
  }

  /**
   * The plan for an excerpt of `d` seconds from `start` (shorts_generator.py:20-59):
   * back to front, the near-black solid, the cover scaled to the canvas height and
   * cropped to the canvas size, then the sharp cover scaled to `CoverWidth`; all
   * as long as the excerpt, on a 1080x1920 canvas.
   */
  function ShortPlan(outputDir: string, audioPath: string, imagePath: string, start: real, d: real,
                     outputFilename: string): (p: Plan)
    requires 0.0 <= start && 0.0 < d
    ensures WellFormed(p) && p.canvas == Canvas && p.output == Join(outputDir, outputFilename)
    ensures p.audio == Excerpt(audioPath, start, start + d)
    ensures p.layers == [ Solid(Canvas, Backing, d),
                          Picture(imagePath, ToHeight(Canvas.height as real), Some(Canvas), d),
                          Picture(imagePath, ToWidth(CoverWidth as real), None, d) ]
  {
    var layers := [ Solid(Canvas, Backing, d),
                    Picture(imagePath, ToHeight(Canvas.height as real), Some(Canvas), d),
                    Picture(imagePath, ToWidth(CoverWidth as real), None, d) ];
    Plan(Canvas, layers, Excerpt(audioPath, start, start + d), Join(outputDir, outputFilename))
  }

  /**
   * `generate_short` (shorts_generator.py:9-73) as the plan it renders. `length`
   * is what loading the audio gives: its duration, or the exception it raised,
   * which comes back unchanged. The source has no guard for a start at or past
   * the end of the audio (or a duration that is not positive): the excerpt is
   * then empty, and the plan reports that instead of following moviepy into it.
   */
  function GenerateShort(outputDir: string, audioPath: string, imagePath: string, start: real, duration: real,
                         outputFilename: string, length: Result<Seconds, string>): (r: Result<Plan, Failure>)
    requires 0.0 <= start
    ensures length.Err? ==> r == Err(Raised(length.error))
    ensures length.Ok? ==> (r.Ok? <==> 0.0 < duration && start < length.value)
    ensures length.Ok? && r.Err? ==> r.error == EmptyWindow(start, length.value)
    ensures r.Ok? ==> r.value.audio.to <= length.value
    ensures r.Ok? ==> r.value == ShortPlan(outputDir, audioPath, imagePath, start, Clamp(start, duration, length.value), outputFilename)
  {
    match length
    case Err(e) => Err(Raised(e))
    case Ok(total) =>
      var d := Clamp(start, duration, total);
      if d <= 0.0 then Err(EmptyWindow(start, total))
      else Ok(ShortPlan(outputDir, audioPath, imagePath, start, d, outputFilename))
  }

  /**
   * The excerpt is the asked-for window when it fits in the audio, and otherwise
   * runs from the start to the end of the audio.
   */
  lemma ShortExcerpt(outputDir: string, audioPath: string, imagePath: string, start: real, duration: real,
                     outputFilename: string, length: Seconds)
    requires 0.0 <= start && 0.0 < duration && start < length
    ensures var r := GenerateShort(outputDir, audioPath, imagePath, start, duration, outputFilename, Ok(length));
      && r.Ok?
      && (start + duration <= length ==> r.value.audio.to == start + duration)
      && (start + duration > length ==> r.value.audio.to == length)
  {
  }
}
