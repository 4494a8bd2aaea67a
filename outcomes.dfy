/** Failure-carrying values shared by the whole backend model. */
module Outcomes {

  datatype Option<+T> = None | Some(value: T)

  /** The errors the backend reports. `NoHearts` is the HTTP 400 "No hearts";
      `StoryNotFound`, `EpisodeNotFound` and `NotFound` are the three HTTP 404
      messages; `ServerError` stands for an exception the handler does not
      catch (a manifest that does not parse, a missing episode file, an
      `initial_state` that is not an object). */
  datatype Error = NoHearts | StoryNotFound | EpisodeNotFound | NotFound | ServerError

  datatype Result<+T> = Success(value: T) | Failure(error: Error)
}
