/** Test results as every source produces them and every drain consumes them (src/models/test-model.ts). */
module TestModel {

  datatype Status = Fail | Pass | Pending | Skipped

  /** `executionUrl` is `executionMetadata.url`, the link to the execution the result comes from;
      `url` links to the test itself. */
  datatype TestResult = TestResult(executionUrl: string, id: string, name: string, status: Status, url: string)
}
