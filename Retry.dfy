/**
 * Per-file upload with bounded retry. Both copies of `uploadFileWithRetry`
 * are modelled: the one in controllers/transcoder.js, which throws from inside
 * the loop on the last attempt, and the one in helpers/uploadDirToGCS.js, which
 * keeps `lastError` and throws after the loop. The upload itself (a
 * checksummed stream pipeline into the bucket) is an oracle: `attempt(k)` is
 * the outcome of the k-th attempt, counting from 1.
 */
module Retry {
  import opened Strings

  /** The outcome of one upload attempt. */
  datatype Attempt = Uploaded | Failed(message: string)

  /** How a call ends: it returns after `attempts` attempts, or throws. */
  datatype Retried =
    | Returned(attempts: nat)
    | Threw(attempts: nat, message: string)
      /** `lastError.message` read while `lastError` is still undefined. */
    | ThrewTypeError

  /** The default `maxRetries` of both copies; both callers rely on it. */
  const DefaultMaxRetries: nat := 5

  /** `path.join(directory, file)` for a plain file name; path normalisation is not modelled. */
  function LocalPath(directory: string, file: string): string
  {
    directory + "/" + file
  }

  /** The object every file of a job's output directory is uploaded to. */
  function RemotePath(fileId: string, file: string): (p: string)
    ensures "video/transcoded/" + fileId + "/" <= p
    ensures p[|"video/transcoded/" + fileId + "/"|..] == file
  {
    "video/transcoded/" + fileId + "/" + file
  }

  /** The message the controller's copy throws once the last attempt fails. */
  function ControllerExhausted(localFilePath: string, maxRetries: nat): string
  {
    "Failed to upload " + localFilePath + " after " + Decimal(maxRetries) + " attempts"
  }

  /** The message the helper's copy throws: it carries the last attempt's error. */
  function HelperExhausted(localFilePath: string, maxRetries: nat, lastError: string): string
  {
    "Failed to upload " + localFilePath + " after " + Decimal(maxRetries) + " attempts: " + lastError
  }

  /**
   * `uploadFileWithRetry` of controllers/transcoder.js. The `for` loop returns at
   * the first successful attempt and throws when attempt `maxRetries` fails, so
   * at most `maxRetries` attempts are made. With `maxRetries < 1` the loop never
   * runs and the call returns without uploading anything.
   */
  method UploadFileWithRetryInController(localFilePath: string, maxRetries: int, attempt: nat -> Attempt)
    returns (r: Retried)
    ensures !r.ThrewTypeError?
    ensures r.Returned? <==> maxRetries < 1 || exists k :: 1 <= k <= maxRetries && attempt(k).Uploaded?
    ensures maxRetries < 1 ==> r == Returned(0)
    ensures r.Returned? && maxRetries >= 1 ==>
      1 <= r.attempts <= maxRetries && attempt(r.attempts).Uploaded?
      && forall k :: 1 <= k < r.attempts ==> attempt(k).Failed?
    ensures r.Threw? ==>
      maxRetries >= 1 && r.attempts == maxRetries
      && (forall k :: 1 <= k <= maxRetries ==> attempt(k).Failed?)
      && r.message == ControllerExhausted(localFilePath, maxRetries)
  {
    var k := 1;
    while k <= maxRetries
      invariant 1 <= k && (maxRetries >= 1 ==> k <= maxRetries)
      invariant forall j :: 1 <= j < k ==> attempt(j).Failed?
    {
      var outcome := attempt(k);
      if outcome.Uploaded? {
        return Returned(k);
      }
      if k == maxRetries {
        return Threw(k, ControllerExhausted(localFilePath, maxRetries));
      }
      k := k + 1;
    }
    return Returned(0);
  }

  /**
   * `uploadFileWithRetry` of helpers/uploadDirToGCS.js. Every failed attempt is
   * remembered in `lastError`; after `maxRetries` failed attempts it throws an
   * error carrying the last attempt's message. With `maxRetries < 1` no attempt
   * is made and reading `lastError.message` throws a TypeError instead.
   */
  method UploadFileWithRetry(localFilePath: string, maxRetries: int, attempt: nat -> Attempt)
    returns (r: Retried)
    ensures r.Returned? <==> exists k :: 1 <= k <= maxRetries && attempt(k).Uploaded?
    ensures r.ThrewTypeError? <==> maxRetries < 1
    ensures r.Returned? ==>
      1 <= r.attempts <= maxRetries && attempt(r.attempts).Uploaded?
      && forall k :: 1 <= k < r.attempts ==> attempt(k).Failed?
    ensures r.Threw? ==>
      maxRetries >= 1 && r.attempts == maxRetries
      && (forall k :: 1 <= k <= maxRetries ==> attempt(k).Failed?)
      && r.message == HelperExhausted(localFilePath, maxRetries, attempt(maxRetries).message)
  {
    var lastError: string := "";
    var k := 1;
    while k <= maxRetries
      invariant 1 <= k && (maxRetries >= 1 ==> k <= maxRetries + 1)
      invariant maxRetries < 1 ==> k == 1
      invariant forall j :: 1 <= j < k ==> attempt(j).Failed?
      invariant k > 1 ==> lastError == attempt(k - 1).message
    {
      var outcome := attempt(k);
      if outcome.Uploaded? {
        return Returned(k);
      }
      lastError := outcome.message;
      k := k + 1;
    }
    if k == 1 {
      return ThrewTypeError;
    }
    return Threw(maxRetries, HelperExhausted(localFilePath, maxRetries, lastError));
  }

  /**
   * A task of the controller's queue: `uploadFileWithRetry(localFilePath,
   * remoteFilePath)` with the default of five attempts.
   */
  method ControllerUpload(localFilePath: string, attempt: nat -> Attempt) returns (r: Retried)
    ensures r.Returned? <==> exists k :: 1 <= k <= DefaultMaxRetries && attempt(k).Uploaded?
    ensures r.Threw? ==> r.attempts == 5 && r.message == ControllerExhausted(localFilePath, 5)
    ensures !r.ThrewTypeError?
  {
    r := UploadFileWithRetryInController(localFilePath, DefaultMaxRetries, attempt);
  }

  /**
   * A task of the helper's queue: `uploadFileWithRetry(localFilePath,
   * remoteFilePath)` with the default of five attempts, so no TypeError.
   */
  method HelperUpload(localFilePath: string, attempt: nat -> Attempt) returns (r: Retried)
    ensures r.Returned? <==> exists k :: 1 <= k <= DefaultMaxRetries && attempt(k).Uploaded?
    ensures r.Threw? ==> r.attempts == 5 && r.message == HelperExhausted(localFilePath, 5, attempt(5).message)
    ensures !r.ThrewTypeError?
  {
    r := UploadFileWithRetry(localFilePath, DefaultMaxRetries, attempt);
  }

  /** The controller wraps a task's failure in the file's name. */
  function TaskFailure(file: string, message: string): (m: string)
    ensures "Failed to upload " + file + ": " <= m
    ensures m[|"Failed to upload " + file + ": "|..] == message
  {
    "Failed to upload " + file + ": " + message
  }
}
