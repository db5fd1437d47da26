/** The full-episode video (youtube_generator.py): the whole audio over its cover, square or 16:9. */
module YouTube {
  import opened Wrappers
  import opened Paths
  import opened Render

  const Black := Rgb(0, 0, 0)

  /**
   * The layout table (youtube_generator.py:22-27): the canvas and the height the
   * sharp cover is scaled to. Only "square" is square; any other format is 16:9.
   * Both are 1080 high, and the cover always leaves a margin above and below.
   */
  function Layout(format: string): (r: (Size, int))
    ensures r.0.height == 1080
    ensures r.0.width == r.0.height <==> format == "square"
    ensures format != "square" ==> r.0.width * 9 == r.0.height * 16
    ensures 0 < r.1 < r.0.height
    ensures format == "square" ==> r.1 == 650
    ensures format != "square" ==> r.1 == 850
  {
    if format == "square" then (Size(1080, 1080), 650) else (Size(1920, 1080), 850)
  }

  /**
   * `generate_video` (youtube_generator.py:14-55) as the plan it renders.
   * `length` is what loading the audio gives: its duration, or the exception it
   * raised, which comes back unchanged.
   */
  function GenerateVideo(outputDir: string, audioPath: string, imagePath: string, outputFilename: string,
                         format: string, length: Result<Seconds, string>): (r: Result<Plan, Failure>)
    ensures r.Err? <==> length.Err?
    ensures length.Err? ==> r == Err(Raised(length.error))
    ensures r.Ok? ==> WellFormed(r.value) && r.value.output == Join(outputDir, outputFilename)
    ensures r.Ok? ==> r.value.audio == Excerpt(audioPath, 0.0, length.value)
    ensures r.Ok? ==>
      var (canvas, cover) := Layout(format);
      && r.value.canvas == canvas
      && r.value.layers == [ Solid(canvas, Black, length.value),
                             Picture(imagePath, ToHeight(canvas.height as real * 1.2), None, length.value),
                             Picture(imagePath, ToHeight(cover as real), None, length.value) ]
  {
    match length
    case Err(e) => Err(Raised(e))
    case Ok(d) =>
      var (canvas, cover) := Layout(format);
      var layers := [ Solid(canvas, Black, d),
                      Picture(imagePath, ToHeight(canvas.height as real * 1.2), None, d),
                      Picture(imagePath, ToHeight(cover as real), None, d) ];
      var plan := Plan(canvas, layers, Excerpt(audioPath, 0.0, d), Join(outputDir, outputFilename));
      assert WellFormed(plan) by {
        assert forall k :: 0 <= k < 3 ==> LayerDuration(layers[k]) == d;
      }
      Ok(plan)
  }

  /**
   * Back to front the cover is zoomed past the canvas behind, and fits inside it in
   * front: the sharp cover is lower than the canvas, the backdrop higher.
   */
  lemma CoverBetweenBackdropAndCanvas(outputDir: string, audioPath: string, imagePath: string, outputFilename: string,
                                      format: string, length: Seconds)
    ensures var p := GenerateVideo(outputDir, audioPath, imagePath, outputFilename, format, Ok(length)).value;
      && p.layers[2].resize.height < p.canvas.height as real < p.layers[1].resize.height
  {
  }
}
