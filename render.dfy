/**
 * What the two video generators hand to moviepy, as a plan: the canvas, the
 * layers composed back to front, the stretch of audio underneath, and the path
 * the video is written to. Clip objects, encoding and the file write are not
 * part of the plan.
 */
module Render {
  import opened Wrappers

  /** A length of time in seconds, as a clip's `duration` reports it. */
  type Seconds = x: real | 0.0 <= x

  datatype Size = Size(width: int, height: int)

  datatype Color = Rgb(red: int, green: int, blue: int)

  /** `resize(height=...)` or `resize(width=...)`: scaled to one side, aspect ratio kept. */
  datatype Resize = ToHeight(height: real) | ToWidth(width: real)

  datatype Layer =
    | Solid(size: Size, color: Color, duration: real)
    /** An image clip, scaled, optionally cropped to a size, centred on the canvas. */
    | Picture(image: string, resize: Resize, crop: Option<Size>, duration: real)

  /** `subclip(from, to)` of the audio file at `path`. */
  datatype Excerpt = Excerpt(path: string, from: real, to: real)

  datatype Plan = Plan(canvas: Size, layers: seq<Layer>, audio: Excerpt, output: string)

  /** Why a generator gives no plan: the exception it re-raises, or a window with no audio in it. */
  datatype Failure = Raised(message: string) | EmptyWindow(start: real, length: real)

  /** A layer's running time. */
  function LayerDuration(l: Layer): real {
    match l
    case Solid(_, _, d) => d
    case Picture(_, _, _, d) => d
  }

  /**
   * What both generators promise of a plan: the back layer is a solid colour the
   * size of the canvas, so every pixel is painted, and every layer runs exactly as
   * long as the audio under it.
   */
  predicate WellFormed(p: Plan) {
    && |p.layers| > 0
    && p.layers[0].Solid? && p.layers[0].size == p.canvas
    && 0.0 <= p.audio.from <= p.audio.to
    && forall k :: 0 <= k < |p.layers| ==> LayerDuration(p.layers[k]) == p.audio.to - p.audio.from
  }
}
