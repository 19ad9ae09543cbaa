/** `DataCacheService`: the session cache that keeps the parsed rows and the last analysis
    result between views, and the lazily created single instance every caller shares. The
    cache never looks inside an analysis result, so its type is a parameter `R`. */
module Cache {
  import opened Text
  import opened Records

  class DataCacheService<R> {
    var csvData: Option<seq<Record>>
    var analysisResult: Option<R>

    /** A new cache holds neither rows nor a result (`null` for both). */
    constructor()
      ensures csvData == None && analysisResult == None
    {
      csvData := None;
      analysisResult := None;
    }

    /** `setCsvData(data)`: stores the rows and leaves the result alone. */
    method SetCsvData(data: seq<Record>)
      modifies this
      ensures csvData == Some(data)
      ensures analysisResult == old(analysisResult)
    {
      csvData := Some(data);
    }

    /** `getCsvData()`: the rows last stored, `None` when there are none; nothing changes. */
    method GetCsvData() returns (data: Option<seq<Record>>)
      ensures data == csvData
    {
      data := csvData;
    }

    /** `setAnalysisResult(result)`: stores the result and leaves the rows alone. */
    method SetAnalysisResult(result: R)
      modifies this
      ensures analysisResult == Some(result)
      ensures csvData == old(csvData)
    {
      analysisResult := Some(result);
    }

    /** `getAnalysisResult()`: the result last stored, `None` when there is none; nothing
        changes. */
    method GetAnalysisResult() returns (result: Option<R>)
      ensures result == analysisResult
    {
      result := analysisResult;
    }

    /** `clearCache()`: forgets both the rows and the result. */
    method ClearCache()
      modifies this
      ensures csvData == None && analysisResult == None
    {
      csvData := None;
      analysisResult := None;
    }
  }

  /** The class-level slot `DataCacheService.instance`, empty until the first request. */
  class Registry<R> {
    var instance: DataCacheService?<R>

    constructor()
      ensures instance == null
    {
      instance := null;
    }

    /** `getInstance()`: the first call creates an empty cache and keeps it; every call
        returns the kept one, so all callers share one cache. */
    method GetInstance() returns (cache: DataCacheService<R>)
      modifies this
      ensures old(instance) != null ==> cache == old(instance)
      ensures old(instance) == null ==>
        fresh(cache) && cache.csvData == None && cache.analysisResult == None
      ensures instance == cache
    {
      if instance == null {
        instance := new DataCacheService();
      }
      cache := instance;
    }
  }

  /** Two requests give the same cache, and what one caller stores the other reads. */
  method SharedInstance<R>(registry: Registry<R>, data: seq<Record>, result: R)
    returns (seen: Option<seq<Record>>, kept: Option<R>)
    modifies registry, registry.instance
    ensures seen == Some(data) && kept == Some(result)
  {
    var first := registry.GetInstance();
    first.SetCsvData(data);
    var second := registry.GetInstance();
    assert second == first;
    second.SetAnalysisResult(result);
    seen := first.GetCsvData();
    kept := first.GetAnalysisResult();
  }
}
